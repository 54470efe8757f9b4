/** The campaign run: failure propagation, ready batches, concurrent execution, and what the whole run guarantees. */
module CampaignRun {
  import opened Wrappers
  import opened DependencyGraph
  import opened Scopes
  import opened CampaignPlan
  import opened CampaignEvents
  import opened EventWriter
  import opened CampaignBudget
  import opened TaskExecution
  import opened BatchBudget
  import opened Scheduling
  import opened RunState
  import opened BatchTrace
  import opened RunHistory

  function Remaining(batch: seq<TaskPlan>, stages: map<Id, Stage>): nat {
    if batch == [] then 0
    else (if batch[0].id in stages then Rank(stages[batch[0].id]) else 0) + Remaining(batch[1..], stages)
  }

  lemma {:induction false} RemainingDrops(batch: seq<TaskPlan>, stages: map<Id, Stage>, after: map<Id, Stage>,
        t: TaskPlan)
    requires t.id in stages && t.id in after && after == stages[t.id := after[t.id]]
    requires Rank(after[t.id]) < Rank(stages[t.id])
    ensures Remaining(batch, after) <= Remaining(batch, stages)
    ensures t in batch ==> Remaining(batch, after) < Remaining(batch, stages)
  {
    if batch != [] {
      RemainingDrops(batch[1..], stages, after, t);
    }
  }

  /** Everything a batch keeps while its tasks interleave. */
  ghost predicate BatchInv(ctx: Context, batch: seq<TaskPlan>, w: World, before: Journal, watch: Watch, parallel: nat) {
    && w.stages.Keys == Ids(batch)
    && (!w.journal.broken ==> !before.broken)
    && Agrees(w, Tasks(before.events))
    && BatchDiscipline(GraphOf(ctx.tasks), w, StartedIn(before.events), SucceededIn(before.events))
    && LedgerIsLog(w)
    && AcceptedFor(ctx.campaignId, w.journal.events)
    && (Watching(ctx, watch) ==> Bounded(ctx, batch, w, watch, parallel))
    && (forall id :: id in w.stages && w.stages[id].Rejected? ==> w.journal.broken)
    && (w.journal.broken ==> before.broken || SomeoneFailed(w))
  }

  ghost predicate SomeoneFailed(w: World) {
    exists id :: id in w.stages && (w.stages[id] == Done(None) || w.stages[id].Rejected?)
  }

  /** The append that breaks the queue costs a task its success. */
  lemma StepFails(ctx: Context, w: World, t: TaskPlan, reply: Reply, before: Journal)
    requires t.id in w.stages && (w.journal.broken ==> before.broken || SomeoneFailed(w))
    ensures var after := TaskStep(ctx, w, t, reply);
      after.journal.broken ==> before.broken || SomeoneFailed(after)
  {
    var after := TaskStep(ctx, w, t, reply);
    StepProgress(ctx, w, t, reply);
    if after.journal.broken && !before.broken {
      if w.journal.broken {
        var id :| id in w.stages && (w.stages[id] == Done(None) || w.stages[id].Rejected?);
        if id == t.id {
          FinishedStays(ctx, w, t, reply);
        }
        assert after.stages[id] == w.stages[id];
      } else {
        EffectIsProper(ctx, w, t, reply);
        assert t.id in after.stages;
      }
    }
  }

  lemma StepBroken(ctx: Context, w: World, t: TaskPlan, reply: Reply)
    requires t.id in w.stages
    ensures var after := TaskStep(ctx, w, t, reply);
      && (!after.journal.broken ==> !w.journal.broken)
      && (after.stages[t.id].Rejected? ==> after.journal.broken || w.stages[t.id].Rejected?)
      && (AcceptedFor(ctx.campaignId, w.journal.events) ==> AcceptedFor(ctx.campaignId, after.journal.events))
  {
    EffectIsProper(ctx, w, t, reply);
    RejectedOnlyOnFailure(ctx, w, t, reply);
    var emits := EffectOf(ctx, w, t, reply).emits;
    if emits.Some? && AcceptedFor(ctx.campaignId, w.journal.events) {
      EmittedAccepted(ctx.campaignId, w.journal, Request(emits.value, Some(t.id)), reply.accepts);
    }
  }

  lemma RejectedOnlyOnFailure(ctx: Context, w: World, t: TaskPlan, reply: Reply)
    requires t.id in w.stages
    ensures EffectOf(ctx, w, t, reply).stored.Rejected? ==> w.stages[t.id].Rejected?
  {
    EffectIsProper(ctx, w, t, reply);
    match w.stages[t.id]
    case Waiting => AdmitShape(ctx, w, t);
    case Executing => ReturnNotRejected(ctx, w, t, reply);
    case _ =>
  }

  lemma ReturnNotRejected(ctx: Context, w: World, t: TaskPlan, reply: Reply)
    ensures !Return(ctx, w, t, reply).stored.Rejected?
  {
  }

  lemma StepInv(ctx: Context, batch: seq<TaskPlan>, w: World, t: TaskPlan, reply: Reply, before: Journal, watch: Watch,
        parallel: nat)
    requires BatchInv(ctx, batch, w, before, watch, parallel)
    requires t in batch && UniqueIds(batch) && |batch| <= parallel
    ensures BatchInv(ctx, batch, TaskStep(ctx, w, t, reply), before, watch, parallel)
  {
    assert t.id in w.stages;
    var after := TaskStep(ctx, w, t, reply);
    StepProgress(ctx, w, t, reply);
    StepBroken(ctx, w, t, reply);
    StepAgrees(ctx, w, t, reply, Tasks(before.events));
    StepDiscipline(ctx, GraphOf(ctx.tasks), w, t, reply, StartedIn(before.events), SucceededIn(before.events));
    StepLedger(ctx, w, t, reply);
    StepFails(ctx, w, t, reply, before);
    if Watching(ctx, watch) {
      StepBounded(ctx, batch, w, t, reply, watch, parallel);
    }
  }

  /** What has been spent stays below the limit by less than one full use for every place. */
  ghost predicate Below(ctx: Context, l: Ledger, log: seq<Entry>, watch: Watch, parallel: nat) {
    Watching(ctx, watch) && UsesAtMost(log, watch.limit.metric, watch.bound) ==>
      Spent(l, watch) < watch.limit.maximum + Times(parallel, watch.bound)
  }

  /** Scheduler, journal and budget between batches. */
  ghost predicate BarrierOk(ctx: Context, s: Sched, w: World, watch: Watch, parallel: nat) {
    && SchedOk(ctx.tasks, s)
    && JournalOk(ctx.tasks, s, w.journal)
    && AcceptedFor(ctx.campaignId, w.journal.events)
    && LedgerIsLog(w)
    && Below(ctx, w.ledger, w.log, watch, parallel)
  }

  /** The part of it that survives a run that throws. */
  ghost predicate RunSafe(ctx: Context, w: World, watch: Watch, parallel: nat) {
    && Orderly(ctx.tasks, w.journal.events)
    && AcceptedFor(ctx.campaignId, w.journal.events)
    && LedgerIsLog(w)
    && Below(ctx, w.ledger, w.log, watch, parallel)
  }

  lemma BarrierIsSafe(ctx: Context, s: Sched, w: World, watch: Watch, parallel: nat)
    requires BarrierOk(ctx, s, w, watch, parallel)
    ensures RunSafe(ctx, w, watch, parallel)
  {
    JournalIsOrderly(ctx.tasks, s, w.journal);
  }

  lemma StartsInPlan(tasks: seq<TaskPlan>, s: Sched, j: Journal)
    requires SchedOk(tasks, s) && JournalOk(tasks, s, j)
    ensures StartedIn(j.events) <= Ids(tasks)
  {
  }

  lemma BlockBarrier(ctx: Context, s: Sched, w: World, t: TaskPlan, d: Id, accepts: bool, watch: Watch, parallel: nat)
    requires BarrierOk(ctx, s, w, watch, parallel) && UniqueIds(ctx.tasks)
    requires t in ctx.tasks && t.id in s.pending && d in t.dependencies && d in s.failed
    ensures BarrierOk(ctx, Block(s, t.id),
      w.(journal := Emitted(ctx.campaignId, w.journal, Request(TaskBlocked, Some(t.id)), accepts)), watch, parallel)
  {
    hide SchedOk, JournalOk, RecordedAll, Below, AcceptedFor;
    PendingIsOpen(ctx.tasks, s);
    BlockOk(ctx.tasks, s, t, d);
    BlockJournal(ctx.tasks, s, w.journal, ctx.campaignId, t.id, accepts);
    EmittedAccepted(ctx.campaignId, w.journal, Request(TaskBlocked, Some(t.id)), accepts);
  }

  lemma BatchBegins(ctx: Context, s: Sched, w: World, batch: seq<TaskPlan>, watch: Watch, parallel: nat)
    requires BarrierOk(ctx, s, w, watch, parallel) && UniqueIds(ctx.tasks) && BatchOf(ctx.tasks, s, batch)
    ensures BatchInv(ctx, batch, w.(stages := FreshStages(batch)), w.journal, watch, parallel)
  {
    hide SchedOk, JournalOk, BatchOf, Agrees, BatchDiscipline, RecordedAll, GraphOf;
    var start := w.(stages := FreshStages(batch));
    BatchStarts(ctx.tasks, s, batch, start);
    assert InFlight(ctx, batch, start, watch.limit.profileId) == {};
  }

  lemma BatchStaysSafe(ctx: Context, batch: seq<TaskPlan>, w: World, before: Journal, watch: Watch, parallel: nat)
    requires BatchInv(ctx, batch, w, before, watch, parallel)
    requires StartedIn(before.events) <= Ids(ctx.tasks) && forall t :: t in batch ==> t in ctx.tasks
    ensures RunSafe(ctx, w, watch, parallel)
  {
    hide Agrees, RecordedAll, GraphOf, Disciplined, StartedIn, SucceededIn, MayStart;
    if Watching(ctx, watch) {
      TimesMonotone(0, |InFlight(ctx, batch, w, watch.limit.profileId)|, watch.bound);
    }
  }

  lemma BatchTasks(tasks: seq<TaskPlan>, s: Sched, batch: seq<TaskPlan>)
    requires BatchOf(tasks, s, batch)
    ensures forall t :: t in batch ==> t in tasks
  {
  }

  lemma BatchConcludes(ctx: Context, s: Sched, batch: seq<TaskPlan>, before: Journal, w: World, after: Sched,
        watch: Watch, parallel: nat)
    requires SchedOk(ctx.tasks, s) && JournalOk(ctx.tasks, s, before) && BatchOf(ctx.tasks, s, batch)
    requires BatchInv(ctx, batch, w, before, watch, parallel)
    requires forall t :: t in batch ==> w.stages[t.id].Done?
    requires SchedOk(ctx.tasks, after) && SettledFrom(s, w, after)
    ensures BarrierOk(ctx, after, w, watch, parallel)
  {
    StartsInPlan(ctx.tasks, s, before);
    BatchStaysSafe(ctx, batch, w, before, watch, parallel);
    hide SchedOk, JournalOk, RecordedAll, Below, AcceptedFor, Agrees, BatchDiscipline, GraphOf, SettledFrom,
      LedgerIsLog, Bounded;
    BatchEnds(ctx.tasks, s, before, w, after);
  }

  class CampaignRun {
    const ctx: Context
    const parallel: nat
    const collate: (Id, Id) -> int
    const budget: CampaignBudget
    const writer: EventWriter
    var pending: set<Id>
    var completed: set<Id>
    var terminalFailures: set<Id>
    var commits: map<Id, Commit>
    var hardStop: bool
    /** Where each task of the current batch stands. */
    var stages: map<Id, Stage>
    ghost var executed: map<Id, bool>
    ghost var log: seq<Entry>
    ghost var batches: seq<seq<TaskPlan>>
    /** The world the run began with, and how each batch unfolded. */
    ghost const opening: World
    ghost var traces: seq<Trace>

    /** The run begins once the campaign has been planned and authorized. */
    constructor (ctx: Context, parallel: nat, collate: (Id, Id) -> int, writer: EventWriter)
      requires writer.Valid() && writer.queue == [] && writer.campaignId == ctx.campaignId
      ensures this.ctx == ctx && this.parallel == parallel && this.writer == writer && fresh(budget)
      ensures Wired() && Sets() == Start(ctx.tasks) && commits == map[] && batches == []
      ensures budget.View() == Ledger(map[], {}) && log == [] && !hardStop
      ensures opening == World(map[], Ledger(map[], {}), false, writer.View(), []) && traces == []
    {
      this.ctx, this.parallel, this.collate, this.writer := ctx, parallel, collate, writer;
      this.budget := new CampaignBudget(ctx.mode, ctx.limits);
      pending, completed, terminalFailures := Ids(ctx.tasks), {}, {};
      commits, stages, hardStop := map[], map[], false;
      executed, log, batches := map[], [], [];
      opening, traces := World(map[], Ledger(map[], {}), false, writer.View(), []), [];
    }

    ghost predicate Wired()
      reads this, budget, writer
    {
      && budget.mode == ctx.mode && budget.limits == ctx.limits
      && writer.campaignId == ctx.campaignId && writer.Valid() && writer.queue == []
    }

    ghost function Now(): World
      reads this, budget, writer
    {
      World(stages, budget.View(), hardStop, writer.View(), log)
    }

    ghost function Sets(): Sched
      reads this
    {
      Sched(pending, completed, terminalFailures, executed)
    }

    /** Emit, then go where the store's answer sends the task. */
    method EmitThen(id: Id, kind: EventKind, stored: Stage, failed: Stage, accepts: bool)
      requires Wired()
      modifies this`stages, writer
      ensures Wired()
      ensures Now() ==
        Apply(ctx.campaignId, old(Now()), id,
          Effect(Some(kind), stored, failed, old(Now().ledger), old(hardStop), old(log)), accepts)
    {
      var ok := writer.Emit(kind, Some(id), accepts);
      stages := stages[id := if ok then stored else failed];
    }

    method AdmitTask(t: TaskPlan, reply: Reply)
      requires Wired() && t.id in stages && stages[t.id].Waiting?
      modifies this`stages, writer
      ensures Wired() && Now() == TaskStep(ctx, old(Now()), t, reply)
    {
      if hardStop {
        EmitThen(t.id, TaskBudgetStopped, Done(None), Rejected, reply.accepts);
        return;
      }
      var profile := ProfileFor(ctx, t);
      var action := budget.Before(profile);
      if action.BlockNew? || action.Stop? {
        EmitThen(t.id, TaskBudgetStopped, Done(None), Rejected, reply.accepts);
      } else if profile !in ctx.runnable {
        EmitThen(t.id, TaskBlocked, Done(None), Rejected, reply.accepts);
      } else {
        stages := stages[t.id := Allocating];
      }
    }

    method WorkerReturns(t: TaskPlan, reply: Reply)
      requires Wired() && t.id in stages && stages[t.id].Executing?
      modifies this`stages, this`hardStop, this`log, budget, writer
      ensures Wired() && Now() == TaskStep(ctx, old(Now()), t, reply)
    {
      if reply.execution.Threw? {
        EmitThen(t.id, TaskFailed, Done(None), Done(None), reply.accepts);
        return;
      }
      var profile := ProfileFor(ctx, t);
      var decision := budget.Record(profile, reply.execution.usage);
      log := log + [Entry(profile, reply.execution.usage)];
      if decision.Err? {
        EmitThen(t.id, TaskFailed, Done(None), Done(None), reply.accepts);
      } else if decision.value.Stop? {
        hardStop := true;
        stages := stages[t.id := Settling(TaskBudgetStopped)];
      } else {
        stages := stages[t.id := Verdict(ctx, reply.execution.status, reply.proofsValid)];
      }
    }

    /** What a task does between two awaits. */
    method Step(t: TaskPlan, reply: Reply)
      requires Wired() && t.id in stages
      modifies this`stages, this`hardStop, this`log, budget, writer
      ensures Wired() && Now() == TaskStep(ctx, old(Now()), t, reply)
    {
      match stages[t.id]
      case Waiting =>
        AdmitTask(t, reply);
      case Allocating =>
        if !reply.workspace || !reply.saved {
          EmitThen(t.id, TaskFailed, Done(None), Done(None), reply.accepts);
        } else {
          EmitThen(t.id, TaskPrepared, PreparedAttempt, Done(None), reply.accepts);
        }
      case PreparedAttempt =>
        if !reply.saved {
          EmitThen(t.id, TaskFailed, Done(None), Done(None), reply.accepts);
        } else {
          EmitThen(t.id, TaskStarted, Executing, Done(None), reply.accepts);
        }
      case Executing =>
        WorkerReturns(t, reply);
      case Settling(verdict) =>
        if !reply.saved {
          EmitThen(t.id, TaskFailed, Done(None), Done(None), reply.accepts);
        } else {
          EmitThen(t.id, verdict, Done(None), Done(None), reply.accepts);
        }
      case Committing =>
        if reply.commit.None? || !reply.saved {
          EmitThen(t.id, TaskFailed, Done(None), Done(None), reply.accepts);
        } else {
          EmitThen(t.id, TaskSucceeded, Done(reply.commit), Done(None), reply.accepts);
        }
      case Done(_) =>
        assert Now().stages == Now().stages[t.id := Now().stages[t.id]];
      case Rejected =>
        assert Now().stages == Now().stages[t.id := Now().stages[t.id]];
    }

    /** One step, remembered. */
    method StepOn(ghost tr: Trace, t: TaskPlan, reply: Reply) returns (ghost longer: Trace)
      requires Wired() && t.id in stages && t in tr.batch
      requires Unfolds(ctx, tr) && tr.worlds != [] && Last(tr) == Now()
      modifies this`stages, this`hardStop, this`log, budget, writer
      ensures Wired() && Now() == TaskStep(ctx, old(Now()), t, reply)
      ensures Unfolds(ctx, longer) && longer.batch == tr.batch && longer.worlds != []
      ensures First(longer) == First(tr) && Last(longer) == Now()
    {
      hide Unfolds, TaskStep;
      Extended(ctx, tr, t, reply);
      Step(t, reply);
      longer := Trace(tr.batch, tr.worlds + [Now()], tr.moves + [Move(t, reply)]);
    }

    /** Runs a batch to its barrier: any unfinished task may step next, and every port may answer anything. */
    method ExecuteBatch(batch: seq<TaskPlan>, ghost watch: Watch) returns (ghost tr: Trace)
      requires Wired() && UniqueIds(batch) && |batch| <= parallel
      requires BarrierOk(ctx, Sets(), Now(), watch, parallel) && UniqueIds(ctx.tasks)
      requires BatchOf(ctx.tasks, Sets(), batch)
      modifies this`stages, this`hardStop, this`log, budget, writer
      ensures Wired()
      ensures BatchInv(ctx, batch, Now(), old(writer.View()), watch, parallel)
      ensures stages.Keys == Ids(batch)
      ensures forall t :: t in batch ==> Finished(stages[t.id])
      ensures Unfolds(ctx, tr) && tr.batch == batch && Last(tr) == Now()
      ensures First(tr) == old(Now()).(stages := FreshStages(batch))
    {
      hide BarrierOk, BatchOf, BatchInv, RecordedAll, GraphOf, TaskStep, Unfolds, UniqueIds;
      ghost var before := writer.View();
      BatchBegins(ctx, Sets(), Now(), batch, watch, parallel);
      stages := FreshStages(batch);
      tr := Trace(batch, [Now()], []);
      TraceBegins(ctx, batch, Now(), before, watch, parallel);
      while exists t :: t in batch && !Finished(stages[t.id])
        invariant Wired()
        invariant BatchInv(ctx, batch, Now(), before, watch, parallel)
        invariant Unfolds(ctx, tr) && tr.batch == batch && tr.worlds != [] && Last(tr) == Now()
        invariant First(tr) == old(Now()).(stages := FreshStages(batch))
        invariant stages.Keys == Ids(batch)
        decreases Remaining(batch, stages)
      {
        var t :| t in batch && !Finished(stages[t.id]);
        var reply: Reply := *;
        ghost var w := Now();
        BatchStages(ctx, batch, w, before, watch, parallel);
        StepInv(ctx, batch, w, t, reply, before, watch, parallel);
        StepProgress(ctx, w, t, reply);
        tr := StepOn(tr, t, reply);
        RemainingDrops(batch, w.stages, stages, t);
      }
      BatchStages(ctx, batch, Now(), before, watch, parallel);
    }

    /** Every batch so far was nonempty, within the limit, and free of shared paths. */
    ghost predicate BatchesFine()
      reads this
    {
      && |batches| + |pending| <= |ctx.tasks|
      && (forall k :: 0 <= k < |batches| ==> 0 < |batches[k]| <= parallel && NoSharedPath(batches[k]))
    }

    /** The batches account for the run: for its budget and its hard stop, for every start and every success in the
        journal since it began, and for every commit. */
    ghost predicate Traced()
      reads this, budget, writer
    {
      && History(ctx, opening, traces, Now())
      && forall id :: id in commits ==> CommitTraced(traces, id, commits[id])
    }

    /** One of the batches earned this commit. */
    ghost predicate CommitTraced(traces: seq<Trace>, id: Id, c: Commit) {
      exists k :: 0 <= k < |traces| && Earned(ctx, traces[k], id, c)
    }

    /** What holds between batches. */
    ghost predicate AtBarrier(watch: Watch)
      reads this, budget, writer
    {
      && Wired() && Traced()
      && (writer.View().broken ==> terminalFailures != {})
      && commits.Keys == completed
      && BarrierOk(ctx, Sets(), Now(), watch, parallel)
      && BatchesFine()
    }

    /** What holds even when an emission has thrown the run out of its loop. */
    ghost predicate Safe(watch: Watch)
      reads this, budget, writer
    {
      && Wired() && Traced()
      && RunSafe(ctx, Now(), watch, parallel)
      && BatchesFine()
    }

    /** The scheduler gives up one task and says so. */
    method BlockTask(t: TaskPlan, accepts: bool, ghost d: Id, ghost watch: Watch) returns (ok: bool)
      requires AtBarrier(watch) && UniqueIds(ctx.tasks)
      requires t in ctx.tasks && t.id in pending && d in t.dependencies && d in terminalFailures
      modifies this`pending, this`terminalFailures, writer
      ensures AtBarrier(watch)
      ensures writer.View() == Emitted(ctx.campaignId, old(writer.View()), Request(TaskBlocked, Some(t.id)), accepts)
      ensures Sets() == Block(old(Sets()), t.id)
      ensures ok <==> !writer.View().broken
    {
      hide BarrierOk, NoSharedPath, History, Earned;
      ghost var w := Now();
      BlockBarrier(ctx, Sets(), w, t, d, accepts, watch, parallel);
      EmittedIsQuiet(ctx.campaignId, w.journal, Request(TaskBlocked, Some(t.id)), accepts);
      SubsetSize(pending - {t.id}, pending);
      pending := pending - {t.id};
      terminalFailures := terminalFailures + {t.id};
      ok := writer.Emit(TaskBlocked, Some(t.id), accepts);
      HistoryGoesOn(ctx, opening, traces, w, Now());
    }

    /** One pass over the plan, in plan order; returns false where the emission throws. */
    method PropagateFailures(ghost watch: Watch) returns (ok: bool)
      requires AtBarrier(watch) && UniqueIds(ctx.tasks)
      modifies this`pending, this`terminalFailures, writer
      ensures AtBarrier(watch)
      ensures pending <= old(pending)
      ensures BlocksSince(old(writer.View()).events, writer.View().events)
      ensures ok ==>
        var given := GivenUp(ctx.tasks, old(Sets()));
        && pending == old(pending) - (set id | id in given)
        && terminalFailures == old(terminalFailures) + (set id | id in given)
        && writer.View().events == WithBlocked(ctx.campaignId, old(writer.View()).events, given)
      ensures !ok ==> writer.View().broken
      ensures ok ==> forall t, d :: t in ctx.tasks && t.id in pending && d in t.dependencies ==>
        d !in old(terminalFailures)
    {
      hide AtBarrier, BlocksSince, WithBlocked, GivenUp;
      ghost var start, events := Sets(), writer.View().events;
      ghost var given: seq<Id> := [];
      NothingGivenUp(start);
      NothingBlocked(ctx.campaignId, events);
      var i := 0;
      while i < |ctx.tasks|
        invariant 0 <= i <= |ctx.tasks|
        invariant AtBarrier(watch)
        invariant given == GivenUp(ctx.tasks[..i], start)
        invariant pending == start.pending - (set id | id in given)
        invariant terminalFailures == start.failed + (set id | id in given)
        invariant writer.View().events == WithBlocked(ctx.campaignId, events, given)
      {
        var t := ctx.tasks[i];
        NextGivenUp(ctx.tasks, i, start);
        if t.id in pending && exists d :: d in t.dependencies && d in terminalFailures {
          ghost var d :| d in t.dependencies && d in terminalFailures;
          var accepts: bool := *;
          OneMoreBlocked(ctx.campaignId, events, given, t.id);
          WithBlockedGrows(ctx.campaignId, events, given);
          var fine := BlockTask(t, accepts, d, watch);
          if !fine {
            return false;
          }
          given := given + [t.id];
        }
        i := i + 1;
      }
      assert ctx.tasks[..i] == ctx.tasks;
      GivenUpCovers(ctx.tasks, start);
      WithBlockedGrows(ctx.campaignId, events, given);
      return true;
    }

    /** One result of a batch. */
    method SettleTask(id: Id, commit: Option<Commit>)
      requires commits.Keys == completed
      modifies this`pending, this`completed, this`terminalFailures, this`commits, this`executed
      ensures commits.Keys == completed
      ensures commits == if commit.Some? then old(commits)[id := commit.value] else old(commits)
      ensures Sets() == Settle(old(Sets()), id, commit.Some?)
    {
      pending := pending - {id};
      executed := executed[id := commit.Some?];
      if commit.None? {
        terminalFailures := terminalFailures + {id};
      } else {
        completed := completed + {id};
        commits := commits[id := commit.value];
      }
    }

    /** After the barrier, in batch order: each result moves its task to the completed or the failed ones. */
    method SettleBatch(batch: seq<TaskPlan>)
      requires UniqueIds(ctx.tasks) && SchedOk(ctx.tasks, Sets()) && BatchOf(ctx.tasks, Sets(), batch)
      requires commits.Keys == completed && stages.Keys == Ids(batch)
      requires forall t :: t in batch ==> stages[t.id].Done?
      modifies this`pending, this`completed, this`terminalFailures, this`commits, this`executed
      ensures SchedOk(ctx.tasks, Sets())
      ensures commits.Keys == completed
      ensures forall id :: id in commits ==>
        (id in old(commits) && commits[id] == old(commits)[id]) ||
          (id in stages && stages[id] == Done(Some(commits[id])))
      ensures SettledFrom(old(Sets()), Now(), Sets())
    {
      hide SchedOk, GraphOf, SettledFrom, Settle, BatchOf, UniqueIds;
      ghost var start, w := Sets(), Now();
      var i := 0;
      while i < |batch|
        invariant 0 <= i <= |batch|
        invariant commits.Keys == completed
        invariant forall id :: id in commits ==>
          (id in old(commits) && commits[id] == old(commits)[id]) ||
            (id in stages && stages[id] == Done(Some(commits[id])))
        invariant Sets() == SettleAll(start, w, batch[..i])
      {
        var t := batch[i];
        assert t in batch;
        SettleTask(t.id, stages[t.id].commit);
        assert batch[..i + 1][..i] == batch[..i];
        i := i + 1;
      }
      assert batch[..i] == batch;
      SettleAllOk(ctx.tasks, start, w, batch);
      BatchSettled(start, w, batch);
    }

    /** The sets when `given` no longer counts as pending but as failed. */
    ghost function Without(given: set<Id>): Sched
      reads this
    {
      Sched(pending - given, completed, terminalFailures, executed)
    }

    /** The tasks of a stuck scheduler, in plan order: each fails as unreachable. (They stay in the `pending` set.) */
    method GiveUp() returns (ok: bool)
      requires Wired() && ValidTasks(ctx.tasks)
      requires SchedOk(ctx.tasks, Sets()) && JournalOk(ctx.tasks, Sets(), writer.View())
      requires AcceptedFor(ctx.campaignId, writer.View().events)
      requires forall t :: t in ctx.tasks && t.id in pending ==> !IsReady(t, completed)
      modifies this`terminalFailures, writer
      ensures Wired() && AcceptedFor(ctx.campaignId, writer.View().events)
      ensures Orderly(ctx.tasks, writer.View().events)
      ensures ok ==> terminalFailures == old(terminalFailures) + pending
      ensures !ok ==> writer.View().broken
      ensures BlocksSince(old(writer.View()).events, writer.View().events)
      ensures ok ==>
        writer.View().events == WithBlocked(ctx.campaignId, old(writer.View()).events, PendingIds(ctx.tasks, pending))
      ensures ok && pending == {} ==> writer.View() == old(writer.View())
      ensures ok && pending != {} ==> !writer.View().broken
      ensures ok ==> SchedOk(ctx.tasks, Without(pending)) && JournalOk(ctx.tasks, Without(pending), writer.View())
    {
      hide SchedOk, JournalOk, ValidTasks, IsReady, Orderly, GraphOf, AcceptedFor, BlocksSince, WithBlocked,
        PendingIds;
      ghost var start, before := Sets(), writer.View();
      NothingPending(pending);
      NothingBlocked(ctx.campaignId, before.events);
      PendingInPlan(ctx.tasks, start);
      GiveUpOk(ctx.tasks, start);
      PendingIsOpen(ctx.tasks, start);
      assert start.pending !! start.completed;
      JournalIsOrderly(ctx.tasks, start, writer.View());
      ghost var given: set<Id> := {};
      assert Without({}) == start by {
        assert pending - {} == pending;
      }
      var i := 0;
      while i < |ctx.tasks|
        invariant 0 <= i <= |ctx.tasks|
        invariant GivingUp(i, given, start, before)
      {
        ok, given := GiveUpAt(i, given, start, before);
        if !ok {
          return false;
        }
        i := i + 1;
      }
      assert ctx.tasks[..i] == ctx.tasks;
      WithBlockedGrows(ctx.campaignId, before.events, PendingIds(ctx.tasks, pending));
      assert given == pending;
      assert Without(pending) == start.(pending := {}, failed := start.failed + start.pending);
      return true;
    }

    /** The first `i` tasks have been gone through: the pending ones among them have failed and are reported. */
    ghost predicate GivingUp(i: nat, given: set<Id>, start: Sched, before: Journal)
      reads this, budget, writer
    {
      && i <= |ctx.tasks| && Wired() && AcceptedFor(ctx.campaignId, writer.View().events)
      && pending == start.pending && completed == start.completed
      && given <= pending && terminalFailures == start.failed + given
      && (forall k :: 0 <= k < i && ctx.tasks[k].id in pending ==> ctx.tasks[k].id in given)
      && JournalOk(ctx.tasks, Without(given), writer.View())
      && Orderly(ctx.tasks, writer.View().events)
      && writer.View().events == WithBlocked(ctx.campaignId, before.events, PendingIds(ctx.tasks[..i], pending))
      && (if given == {} then writer.View() == before else !writer.View().broken)
    }

    method GiveUpAt(i: nat, ghost given: set<Id>, ghost start: Sched, ghost before: Journal)
        returns (ok: bool, ghost after: set<Id>)
      requires i < |ctx.tasks| && GivingUp(i, given, start, before)
      requires start.pending + start.completed + start.failed <= Ids(ctx.tasks) && start.pending !! start.completed
      modifies this`terminalFailures, writer
      ensures ok ==> GivingUp(i + 1, after, start, before)
      ensures !ok ==> writer.View().broken && BlocksSince(before.events, writer.View().events)
      ensures Wired() && AcceptedFor(ctx.campaignId, writer.View().events) && Orderly(ctx.tasks, writer.View().events)
    {
      hide SchedOk, JournalOk, Orderly, GraphOf, AcceptedFor, BlocksSince, WithBlocked, PendingIds;
      var t := ctx.tasks[i];
      ok, after := true, given;
      NextPending(ctx.tasks, i, pending);
      if t.id in pending {
        ghost var told := PendingIds(ctx.tasks[..i], pending);
        OneMoreBlocked(ctx.campaignId, before.events, told, t.id);
        WithBlockedGrows(ctx.campaignId, before.events, told);
        var accepts: bool := *;
        ok, after := GiveUpTask(t.id, given, accepts);
      }
    }

    method GiveUpTask(id: Id, ghost given: set<Id>, accepts: bool) returns (ok: bool, ghost after: set<Id>)
      requires Wired() && id in pending && id !in completed && given <= pending
      requires pending + completed + terminalFailures <= Ids(ctx.tasks)
      requires JournalOk(ctx.tasks, Without(given), writer.View())
      requires AcceptedFor(ctx.campaignId, writer.View().events)
      modifies this`terminalFailures, writer
      ensures Wired() && AcceptedFor(ctx.campaignId, writer.View().events)
      ensures after == given + {id} && terminalFailures == old(terminalFailures) + {id}
      ensures JournalOk(ctx.tasks, Without(after), writer.View())
      ensures Orderly(ctx.tasks, writer.View().events)
      ensures writer.View() == Emitted(ctx.campaignId, old(writer.View()), Request(TaskBlocked, Some(id)), accepts)
      ensures ok <==> !writer.View().broken
    {
      hide JournalOk, Orderly, AcceptedFor;
      EmittedAccepted(ctx.campaignId, writer.View(), Request(TaskBlocked, Some(id)), accepts);
      after := given + {id};
      BlockJournal(ctx.tasks, Without(given), writer.View(), ctx.campaignId, id, accepts);
      assert Block(Without(given), id).pending == pending - after;
      terminalFailures := terminalFailures + {id};
      ok := writer.Emit(TaskBlocked, Some(id), accepts);
      JournalIsOrderly(ctx.tasks, Without(after), writer.View());
    }

    ghost predicate LayersWhenUnbounded()
      reads this
    {
      parallel >= |ctx.tasks| ==> LayersOk(ctx.tasks, Sets(), batches)
    }

    /** Executes one batch, and remembers how it unfolded. */
    method PerformBatch(batch: seq<TaskPlan>, ghost watch: Watch) returns (ghost tr: Trace)
      requires AtBarrier(watch) && ValidTasks(ctx.tasks)
      requires BatchOf(ctx.tasks, Sets(), batch) && UniqueIds(batch) && |batch| <= parallel
      modifies this`stages, this`hardStop, this`log, this`traces, budget, writer
      ensures Wired() && Traced() && BatchesFine() && RunSafe(ctx, Now(), watch, parallel)
      ensures BatchInv(ctx, batch, Now(), old(writer.View()), watch, parallel)
      ensures stages.Keys == Ids(batch) && forall t :: t in batch ==> Finished(stages[t.id])
      ensures traces == old(traces) + [tr] && Unfolds(ctx, tr) && Last(tr) == Now()
    {
      hide BarrierOk, BatchOf, SchedOk, JournalOk, BatchInv, RunSafe, KnownDependencies, GraphOf, NoSharedPath,
        IndependentScopesDisjoint, ValidTask, Acyclic, Unfolds, History, Earned, First, Last;
      ghost var s, before, was := Sets(), writer.View(), Now();
      BarrierParts(ctx, s, was, watch, parallel);
      tr := ExecuteBatch(batch, watch);
      TraceLength(ctx, tr);
      TraceStarts(was, batch, tr);
      HistoryOfBatch(ctx, opening, traces, was, tr);
      EarlierCommits(traces, tr);
      traces := traces + [tr];
      StartsInPlan(ctx.tasks, s, before);
      BatchTasks(ctx.tasks, s, batch);
      BatchStaysSafe(ctx, batch, Now(), before, watch, parallel);
    }

    /** Takes in the results of a batch in which nothing rejected. */
    method TakeIn(batch: seq<TaskPlan>, ghost before: Journal, ghost tr: Trace, ghost watch: Watch)
      requires Wired() && Traced() && UniqueIds(ctx.tasks) && commits.Keys == completed
      requires SchedOk(ctx.tasks, Sets()) && JournalOk(ctx.tasks, Sets(), before) && BatchOf(ctx.tasks, Sets(), batch)
      requires BatchInv(ctx, batch, Now(), before, watch, parallel)
      requires before.broken ==> terminalFailures != {}
      requires batch != [] && stages.Keys == Ids(batch) && forall t :: t in batch ==> stages[t.id].Done?
      requires traces != [] && traces[|traces| - 1] == tr && Unfolds(ctx, tr) && Last(tr) == Now()
      requires BatchesFine() && |batch| <= parallel && NoSharedPath(batch)
      modifies this`pending, this`completed, this`terminalFailures, this`commits, this`executed, this`batches
      ensures BatchesFine() && batches == old(batches) + [batch]
      ensures Traced() && commits.Keys == completed
      ensures BarrierOk(ctx, Sets(), Now(), watch, parallel)
      ensures writer.View().broken ==> terminalFailures != {}
      ensures |pending| < |old(pending)| && SettledFrom(old(Sets()), Now(), Sets())
    {
      hide BarrierOk, BatchOf, SchedOk, JournalOk, SettledFrom, BatchInv, Unfolds, History, Last, SomeoneFailed,
        CommitTraced, UniqueIds, NoSharedPath;
      ghost var s, w := Sets(), Now();
      BatchFailures(ctx, batch, w, before, watch, parallel);
      SettleBatch(batch);
      NewCommits(tr, w);
      BatchConcludes(ctx, s, batch, before, w, Sets(), watch, parallel);
      FailureSettled(s, w, Sets());
      PendingShrinks(ctx.tasks, s, batch, w, Sets());
      batches := batches + [batch];
    }

    /** Executes one batch and takes in its results; returns false where a result rejects. */
    method RunBatch(batch: seq<TaskPlan>, ghost watch: Watch) returns (ok: bool)
      requires AtBarrier(watch) && ValidTasks(ctx.tasks)
      requires BatchOf(ctx.tasks, Sets(), batch) && UniqueIds(batch) && 0 < |batch| <= parallel && NoSharedPath(batch)
      modifies this, budget, writer
      ensures Safe(watch)
      ensures !ok ==> writer.View().broken
      ensures ok ==> AtBarrier(watch) && batches == old(batches) + [batch] && |pending| < |old(pending)|
      ensures ok ==> stages.Keys == Ids(batch) && SettledFrom(old(Sets()), Now(), Sets())
    {
      hide BarrierOk, NoSharedPath, BatchOf, SchedOk, JournalOk, SettledFrom, BatchInv, RunSafe, ValidTasks, UniqueIds,
        GraphOf, Unfolds, History, CommitTraced, Last, SomeoneFailed, BatchesFine;
      ghost var before := writer.View();
      PlanIds(ctx.tasks);
      BarrierParts(ctx, Sets(), Now(), watch, parallel);
      ghost var tr := PerformBatch(batch, watch);
      BatchFailures(ctx, batch, Now(), before, watch, parallel);
      if exists t :: t in batch && stages[t.id].Rejected? {
        return false;
      }
      TakeIn(batch, before, tr, watch);
      return true;
    }

    /** What was earned in earlier batches stays so... */
    lemma EarlierCommits(traces: seq<Trace>, tr: Trace)
      ensures forall id, c :: CommitTraced(traces, id, c) ==> CommitTraced(traces + [tr], id, c)
    {
      hide Earned;
      forall id, c | CommitTraced(traces, id, c)
        ensures CommitTraced(traces + [tr], id, c)
      {
        var k :| 0 <= k < |traces| && Earned(ctx, traces[k], id, c);
        assert (traces + [tr])[k] == traces[k];
      }
    }

    /** ...and the tasks of the last batch that are done with a commit earned it there. */
    lemma NewCommits(tr: Trace, w: World)
      requires Unfolds(ctx, tr) && Last(tr) == w && traces != [] && traces[|traces| - 1] == tr
      ensures forall id, c :: id in w.stages && w.stages[id] == Done(Some(c)) ==> CommitTraced(traces, id, c)
    {
      hide Earned, Unfolds, Last;
      forall id, c | id in w.stages && w.stages[id] == Done(Some(c))
        ensures CommitTraced(traces, id, c)
      {
        CommitIsEarned(ctx, tr, id, c);
      }
    }

    /** One turn of the run loop: the failure pass leaves the sets `head`, and then the best of what is ready runs, as
        much as the limit allows. */
    method RunTurn(ghost watch: Watch) returns (turn: Turn, ghost head: Sched)
      requires AtBarrier(watch) && ValidTasks(ctx.tasks) && parallel > 0 && LayersWhenUnbounded()
      modifies this, budget, writer
      ensures Safe(watch)
      ensures turn.Thrown? ==> writer.View().broken
      ensures !turn.Thrown? ==> AtBarrier(watch) && LayersWhenUnbounded()
      ensures turn.Ran? ==> |pending| < |old(pending)|
      ensures head.completed == old(completed) && head.pending <= old(pending)
      ensures !turn.Thrown? ==> forall t, d :: t in ctx.tasks && t.id in head.pending && d in t.dependencies ==>
        d !in old(terminalFailures)
      ensures turn.Ran? ==>
        && batches == old(batches) + [NextBatch(ctx.tasks, head.completed, head.pending, collate, parallel)]
        && SettledFrom(head, Now(), Sets())
      ensures turn.Stuck? ==> forall t :: t in ctx.tasks && t.id in pending ==> !IsReady(t, completed)
    {
      hide BarrierOk, NoSharedPath, BatchOf, SchedOk, SettledFrom, RunSafe, KnownDependencies, GraphOf,
        IndependentScopesDisjoint, LayersOk, IsReady;
      ghost var was := Sets();
      BarrierParts(ctx, was, Now(), watch, parallel);
      var ok := PropagateFailures(watch);
      head := Sets();
      SubsetSize(head.pending, was.pending);
      BarrierIsSafe(ctx, head, Now(), watch, parallel);
      BarrierParts(ctx, head, Now(), watch, parallel);
      if !ok {
        return Thrown, head;
      }
      var batch := NextBatch(ctx.tasks, completed, pending, collate, parallel);
      NextBatchIsBatch(ctx.tasks, head, collate, parallel);
      if batch == [] {
        if parallel >= |ctx.tasks| {
          LayersAfterPass(ctx.tasks, was, head, batches);
        }
        return Stuck, head;
      }
      ReadyBatchDisjoint(ctx.tasks, head, batch);
      ok := RunBatch(batch, watch);
      if !ok {
        return Thrown, head;
      }
      if parallel >= |ctx.tasks| {
        LayersAfterTurn(ctx.tasks, was, head, batch, Now(), Sets(), old(batches));
      }
      return Ran, head;
    }

    /** The run is over: every task completed or failed, and the journal and the budget say the same. */
    ghost predicate Concluded(watch: Watch)
      reads this, budget, writer
    {
      && Safe(watch)
      && commits.Keys == completed
      && Without(pending).pending == {}
      && SchedOk(ctx.tasks, Without(pending))
      && JournalOk(ctx.tasks, Without(pending), writer.View())
      && (parallel >= |ctx.tasks| ==> LayersOk(ctx.tasks, Without(pending), batches))
    }

    /** The whole run up to integration. `Err` stands for an exception, `None` for a blocked campaign; otherwise the
        commits of all tasks, in plan order. */
    method Run(ghost watch: Watch) returns (r: Result<Option<seq<Commit>>, ()>)
      requires AtBarrier(watch) && ValidTasks(ctx.tasks) && parallel > 0
      requires Sets() == Start(ctx.tasks) && batches == []
      modifies this, budget, writer
      ensures Safe(watch)
      ensures r.Err? <==> writer.View().broken
      ensures r.Ok? ==> Concluded(watch)
      ensures r.Ok? ==> (r.value.None? <==> terminalFailures != {})
      ensures r.Ok? && r.value.None? ==> EndedWith(CampaignBlocked)
      ensures r.Ok? && r.value.Some? ==> AllCommitted(r.value.value)
    {
      hide BarrierOk, NoSharedPath, SchedOk, RunSafe, ValidTasks, LayersOk, IsReady, GraphOf, Concluded;
      StartLayers(ctx.tasks);
      BarrierIsSafe(ctx, Sets(), Now(), watch, parallel);
      while pending != {}
        invariant AtBarrier(watch) && LayersWhenUnbounded() && Safe(watch)
        decreases |pending|
      {
        var turn, _ := RunTurn(watch);
        if turn.Thrown? {
          return Err(());
        }
        if turn.Stuck? {
          break;
        }
      }
      r := Conclude(watch);
    }

    /** After the loop, what is still pending fails as unreachable. */
    method FinishPending(ghost watch: Watch) returns (ok: bool)
      requires AtBarrier(watch) && ValidTasks(ctx.tasks) && LayersWhenUnbounded()
      requires forall t :: t in ctx.tasks && t.id in pending ==> !IsReady(t, completed)
      modifies this`terminalFailures, writer
      ensures Safe(watch)
      ensures writer.View().broken ==> !ok || terminalFailures != {}
      ensures !ok ==> writer.View().broken
      ensures ok ==> Concluded(watch) && pending <= terminalFailures
    {
      hide BarrierOk, NoSharedPath, SchedOk, JournalOk, RunSafe, ValidTasks, LayersOk, IsReady, GraphOf, Orderly,
        RecordedAll, Below, AcceptedFor;
      ghost var s, w := Sets(), Now();
      BarrierIsSafe(ctx, s, w, watch, parallel);
      BarrierParts(ctx, s, w, watch, parallel);
      ok := GiveUp();
      StillSafe(ctx, w, Now(), watch, parallel);
      HistoryGoesOn(ctx, opening, traces, w, Now());
      if ok && parallel >= |ctx.tasks| {
        LayersAfterPass(ctx.tasks, s, Without(pending), batches);
      }
    }

    method ReportBlocked(ghost watch: Watch) returns (ok: bool)
      requires Concluded(watch)
      modifies writer
      ensures Concluded(watch)
      ensures ok <==> !writer.View().broken
      ensures ok ==> EndedWith(CampaignBlocked)
    {
      hide NoSharedPath, SchedOk, JournalOk, RunSafe, LayersOk, GraphOf, Orderly, AcceptedFor;
      ghost var w := Now();
      RunSafeParts(ctx, w, watch, parallel);
      PendingInPlan(ctx.tasks, Without(pending));
      var accepts: bool := *;
      EmittedAccepted(ctx.campaignId, writer.View(), Request(CampaignBlocked, None), accepts);
      CampaignEventJournal(ctx.tasks, Without(pending), writer.View(), ctx.campaignId, CampaignBlocked, accepts);
      EmittedIsQuiet(ctx.campaignId, writer.View(), Request(CampaignBlocked, None), accepts);
      ok := writer.Emit(CampaignBlocked, None, accepts);
      HistoryGoesOn(ctx, opening, traces, w, Now());
      JournalIsOrderly(ctx.tasks, Without(pending), writer.View());
      StillSafe(ctx, w, Now(), watch, parallel);
    }

    /** What follows the loop: unreachable tasks fail, and either the campaign is blocked or all commits are at hand. */
    method Conclude(ghost watch: Watch) returns (r: Result<Option<seq<Commit>>, ()>)
      requires AtBarrier(watch) && ValidTasks(ctx.tasks) && LayersWhenUnbounded()
      requires forall t :: t in ctx.tasks && t.id in pending ==> !IsReady(t, completed)
      modifies this`terminalFailures, writer
      ensures Safe(watch)
      ensures r.Err? <==> writer.View().broken
      ensures r.Ok? ==> Concluded(watch)
      ensures r.Ok? ==> (r.value.None? <==> terminalFailures != {})
      ensures r.Ok? && r.value.None? ==> EndedWith(CampaignBlocked)
      ensures r.Ok? && r.value.Some? ==> AllCommitted(r.value.value)
    {
      hide AtBarrier, NoSharedPath, SchedOk, JournalOk, RunSafe, ValidTasks, LayersOk, IsReady, GraphOf,
        LayersWhenUnbounded;
      var ok := FinishPending(watch);
      if !ok {
        return Err(());
      }
      if terminalFailures != {} {
        ok := ReportBlocked(watch);
        if !ok {
          return Err(());
        }
        return Ok(None);
      }
      assert pending == {};
      EverythingCompleted(ctx.tasks, Without(pending));
      var ordered := seq(|ctx.tasks|, i requires 0 <= i < |ctx.tasks| &&
        ctx.tasks[i].id in commits reads this => commits[ctx.tasks[i].id]);
      return Ok(Some(ordered));
    }

    /** The journal is whole, and its last event is of this kind. */
    ghost predicate EndedWith(kind: EventKind)
      reads this, writer
    {
      !writer.View().broken && writer.View().events != [] &&
        writer.View().events[|writer.View().events| - 1].kind == kind
    }

    /** Nothing is left, every task completed, and these are the commits of all of them, in plan order. */
    ghost predicate AllCommitted(ordered: seq<Commit>)
      reads this
    {
      && pending == {} && terminalFailures == {} && completed == Ids(ctx.tasks)
      && |ordered| == |ctx.tasks|
      && forall i :: 0 <= i < |ctx.tasks| ==> ctx.tasks[i].id in commits && ordered[i] == commits[ctx.tasks[i].id]
    }
  }

  lemma NothingBlocked(campaignId: Id, events: seq<CampaignEvent>)
    ensures WithBlocked(campaignId, events, []) == events
  {
  }

  lemma {:induction false} WithBlockedGrows(campaignId: Id, events: seq<CampaignEvent>, ids: seq<Id>)
    ensures BlocksSince(events, WithBlocked(campaignId, events, ids))
  {
    if ids != [] {
      WithBlockedGrows(campaignId, events, ids[..|ids| - 1]);
    }
  }

  lemma EmittedIsQuiet(campaignId: Id, j: Journal, request: Request, accepts: bool)
    requires !request.kind.TaskStarted? && !request.kind.TaskSucceeded?
    ensures QuietSince(j.events, Emitted(campaignId, j, request, accepts).events)
  {
  }

  lemma TraceBegins(ctx: Context, batch: seq<TaskPlan>, w: World, before: Journal, watch: Watch, parallel: nat)
    requires UniqueIds(batch) && w.stages == FreshStages(batch) && BatchInv(ctx, batch, w, before, watch, parallel)
    ensures Unfolds(ctx, Trace(batch, [w], []))
  {
  }

  lemma BatchStages(ctx: Context, batch: seq<TaskPlan>, w: World, before: Journal, watch: Watch, parallel: nat)
    requires BatchInv(ctx, batch, w, before, watch, parallel)
    ensures w.stages.Keys == Ids(batch) && forall t :: t in batch ==> t.id in w.stages
  {
  }

  lemma TraceStarts(w: World, batch: seq<TaskPlan>, tr: Trace)
    requires tr.worlds != [] && First(tr) == w.(stages := FreshStages(batch))
    ensures Carries(w, First(tr))
  {
  }

  /** A batch that rejects, or breaks the queue, shows it. */
  lemma BatchFailures(ctx: Context, batch: seq<TaskPlan>, w: World, before: Journal, watch: Watch, parallel: nat)
    requires BatchInv(ctx, batch, w, before, watch, parallel)
    ensures (exists t :: t in batch && t.id in w.stages && w.stages[t.id].Rejected?) ==> w.journal.broken
    ensures w.journal.broken ==> before.broken || SomeoneFailed(w)
  {
  }

  lemma FailureSettled(s: Sched, w: World, after: Sched)
    requires SettledFrom(s, w, after)
    ensures SomeoneFailed(w) || s.failed != {} ==> after.failed != {}
  {
    if id :| id in w.stages && (w.stages[id] == Done(None) || w.stages[id].Rejected?) {
      assert id in after.failed;
    } else if id :| id in s.failed {
      assert id in after.failed;
    }
  }

  lemma PlanIds(tasks: seq<TaskPlan>)
    requires ValidTasks(tasks)
    ensures UniqueIds(tasks)
  {
  }

  lemma RunSafeParts(ctx: Context, w: World, watch: Watch, parallel: nat)
    requires RunSafe(ctx, w, watch, parallel)
    ensures AcceptedFor(ctx.campaignId, w.journal.events)
  {
  }

  lemma PendingInPlan(tasks: seq<TaskPlan>, s: Sched)
    requires SchedOk(tasks, s)
    ensures s.pending + s.completed + s.failed <= Ids(tasks)
  {
  }

  lemma EverythingCompleted(tasks: seq<TaskPlan>, s: Sched)
    requires SchedOk(tasks, s) && s.pending == {} && s.failed == {}
    ensures s.completed == Ids(tasks)
    ensures forall i :: 0 <= i < |tasks| ==> tasks[i].id in s.completed
  {
    forall i | 0 <= i < |tasks|
      ensures tasks[i].id in s.completed
    {
      assert tasks[i] in tasks;
    }
  }

  lemma StillSafe(ctx: Context, w: World, after: World, watch: Watch, parallel: nat)
    requires RunSafe(ctx, w, watch, parallel) && Orderly(ctx.tasks, after.journal.events)
    requires AcceptedFor(ctx.campaignId, after.journal.events)
    requires after.ledger == w.ledger && after.log == w.log
    ensures RunSafe(ctx, after, watch, parallel)
  {
  }

  lemma BarrierParts(ctx: Context, s: Sched, w: World, watch: Watch, parallel: nat)
    requires BarrierOk(ctx, s, w, watch, parallel)
    ensures SchedOk(ctx.tasks, s) && JournalOk(ctx.tasks, s, w.journal)
    ensures AcceptedFor(ctx.campaignId, w.journal.events)
  {
  }

  lemma PendingShrinks(tasks: seq<TaskPlan>, s: Sched, batch: seq<TaskPlan>, w: World, after: Sched)
    requires BatchOf(tasks, s, batch) && batch != [] && w.stages.Keys == Ids(batch) && SettledFrom(s, w, after)
    ensures |after.pending| < |s.pending|
  {
    var id := batch[0].id;
    assert batch[0] in batch;
    assert after.pending <= s.pending - {id};
    SubsetSize(after.pending, s.pending - {id});
  }

  datatype Turn = Ran | Stuck | Thrown

}
