/** How far a batch of concurrent tasks can overshoot a budget limit. */
module BatchBudget {
  import opened Wrappers
  import opened DependencyGraph
  import opened CampaignPlan
  import opened CampaignEvents
  import opened CampaignBudget
  import opened TaskExecution
  import opened Scheduling

  /** One limit, and a bound on what a single execution uses of its metric. */
  datatype Watch = Watch(limit: BudgetLimit, bound: real)

  /** Admitted, and not yet recorded. */
  predicate Charging(s: Stage) {
    s.Allocating? || s.PreparedAttempt? || s.Executing?
  }

  ghost function InFlight(ctx: Context, batch: seq<TaskPlan>, w: World, p: ProfileId): set<Id> {
    set t | t in batch && t.id in w.stages && Charging(w.stages[t.id]) && ProfileFor(ctx, t) == p :: t.id
  }

  ghost predicate UsesAtMost(log: seq<Entry>, m: Metric, bound: real) {
    forall e :: e in log ==> Amount(MeasureOf(e.usage, m)) <= bound
  }

  ghost function Spent(l: Ledger, watch: Watch): real {
    Total(l, watch.limit.profileId, watch.limit.metric)
  }

  ghost function Times(n: nat, u: real): real {
    n as real * u
  }

  lemma TimesMonotone(m: nat, n: nat, u: real)
    requires m <= n && u >= 0.0
    ensures Times(m, u) <= Times(n, u)
  {
  }

  lemma TimesStep(n: nat, u: real)
    ensures Times(n + 1, u) == Times(n, u) + u
  {
  }

  /** While no execution uses more than the bound: what is spent, plus a full use by every task in flight, stays below
      the limit plus a full use by every place there is. */
  ghost predicate Bounded(ctx: Context, batch: seq<TaskPlan>, w: World, watch: Watch, parallel: nat) {
    UsesAtMost(w.log, watch.limit.metric, watch.bound) ==>
      Spent(w.ledger, watch) + Times(|InFlight(ctx, batch, w, watch.limit.profileId)|, watch.bound)
        < watch.limit.maximum + Times(parallel, watch.bound)
  }

  ghost predicate Watching(ctx: Context, watch: Watch) {
    !ctx.mode.Observe? && watch.limit in ctx.limits && watch.bound >= 0.0
  }

  /** Only an admission makes a task charge, and only below the limit. */
  lemma AdmissionBelowLimit(ctx: Context, w: World, t: TaskPlan, watch: Watch)
    requires Watching(ctx, watch) && ProfileFor(ctx, t) == watch.limit.profileId
    requires Admit(ctx, w, t).stored.Allocating?
    ensures Spent(w.ledger, watch) < watch.limit.maximum
  {
    assert !ExceedsLimit(w.ledger, watch.limit);
  }

  lemma BatchCount(ctx: Context, batch: seq<TaskPlan>, w: World, p: ProfileId)
    ensures |InFlight(ctx, batch, w, p)| <= |batch|
  {
    IdsFit(batch);
    SubsetSize(InFlight(ctx, batch, w, p), Ids(batch));
  }

  /** The task that steps is the only one whose stage changes. */
  lemma InFlightAfter(ctx: Context, batch: seq<TaskPlan>, w: World, after: World, t: TaskPlan, p: ProfileId)
    requires t in batch && UniqueIds(batch) && t.id in w.stages
    requires t.id in after.stages && after.stages == w.stages[t.id := after.stages[t.id]]
    ensures var was, now := InFlight(ctx, batch, w, p), InFlight(ctx, batch, after, p);
      now == (was - {t.id}) + (if Charging(after.stages[t.id]) && ProfileFor(ctx, t) == p then {t.id} else {})
    ensures t.id in InFlight(ctx, batch, w, p) <==> Charging(w.stages[t.id]) && ProfileFor(ctx, t) == p
  {
    forall s | s in batch && s.id == t.id
      ensures s == t
    {
      var i :| 0 <= i < |batch| && batch[i] == s;
      var j :| 0 <= j < |batch| && batch[j] == t;
    }
  }

  /** The task takes its place in flight: the limit was not reached yet. */
  lemma PlaceBounded(ctx: Context, batch: seq<TaskPlan>, w: World, after: World, t: TaskPlan, watch: Watch,
        parallel: nat)
    requires Watching(ctx, watch) && |batch| <= parallel
    requires t in batch && UniqueIds(batch) && t.id in w.stages
    requires Admit(ctx, w, t).stored.Allocating?
    requires after == w.(stages := w.stages[t.id := Allocating])
    requires Bounded(ctx, batch, w, watch, parallel)
    ensures Bounded(ctx, batch, after, watch, parallel)
  {
    var p := watch.limit.profileId;
    InFlightAfter(ctx, batch, w, after, t, p);
    if ProfileFor(ctx, t) == p {
      AdmissionBelowLimit(ctx, w, t, watch);
      BatchCount(ctx, batch, after, p);
      TimesMonotone(|InFlight(ctx, batch, after, p)|, parallel, watch.bound);
    } else {
      SubsetSize(InFlight(ctx, batch, after, p), InFlight(ctx, batch, w, p));
      TimesMonotone(|InFlight(ctx, batch, after, p)|, |InFlight(ctx, batch, w, p)|, watch.bound);
    }
  }

  lemma AdmitShape(ctx: Context, w: World, t: TaskPlan)
    ensures var e := Admit(ctx, w, t);
      e == Quietly(w, Allocating) || e == Refuse(w, TaskBudgetStopped) || e == Refuse(w, TaskBlocked)
  {
  }

  lemma AdmitBounded(ctx: Context, batch: seq<TaskPlan>, w: World, t: TaskPlan, accepts: bool, watch: Watch,
        parallel: nat)
    requires Watching(ctx, watch) && |batch| <= parallel
    requires t in batch && UniqueIds(batch) && t.id in w.stages
    requires Bounded(ctx, batch, w, watch, parallel)
    ensures Bounded(ctx, batch, Apply(ctx.campaignId, w, t.id, Admit(ctx, w, t), accepts), watch, parallel)
  {
    AdmitShape(ctx, w, t);
    var e := Admit(ctx, w, t);
    if e.stored.Allocating? {
      PlaceBounded(ctx, batch, w, Apply(ctx.campaignId, w, t.id, e, accepts), t, watch, parallel);
    } else {
      OtherBounded(ctx, batch, w, t, e, accepts, watch, parallel);
    }
  }

  /** The task leaves its place: what it recorded is at most the full use it was charged. */
  lemma ReturnBounded(ctx: Context, batch: seq<TaskPlan>, w: World, t: TaskPlan, reply: Reply, watch: Watch,
        parallel: nat)
    requires Watching(ctx, watch)
    requires t in batch && UniqueIds(batch) && t.id in w.stages && w.stages[t.id].Executing?
    requires Bounded(ctx, batch, w, watch, parallel)
    ensures Bounded(ctx, batch, Apply(ctx.campaignId, w, t.id, Return(ctx, w, t, reply), reply.accepts), watch,
      parallel)
  {
    hide Return, InFlight, Spent, UsesAtMost, Recorded, Times, UniqueIds;
    var e, p := Return(ctx, w, t, reply), watch.limit.profileId;
    var after := Apply(ctx.campaignId, w, t.id, e, reply.accepts);
    ReturnLedger(ctx, w, t, reply);
    assert !Charging(after.stages[t.id]);
    InFlightAfter(ctx, batch, w, after, t, p);
    var was, now := InFlight(ctx, batch, w, p), InFlight(ctx, batch, after, p);
    if UsesAtMost(after.log, watch.limit.metric, watch.bound) {
      ReturnSpends(ctx, w, t, reply, watch);
      if ProfileFor(ctx, t) == p {
        assert now == was - {t.id} && |was| == |now| + 1;
        TimesStep(|now|, watch.bound);
      } else {
        assert now == was;
      }
    }
  }

  lemma ReturnLedger(ctx: Context, w: World, t: TaskPlan, reply: Reply)
    ensures var e := Return(ctx, w, t, reply);
      && !Charging(e.stored) && !Charging(e.failed)
      && match reply.execution
         case Threw => e.ledger == w.ledger && e.log == w.log
         case Returned(_, usage) =>
           && e.ledger == Recorded(w.ledger, ProfileFor(ctx, t), usage).0
           && e.log == w.log + [Entry(ProfileFor(ctx, t), usage)]
  {
    hide Recorded, Decision;
  }

  lemma ReturnSpends(ctx: Context, w: World, t: TaskPlan, reply: Reply, watch: Watch)
    requires watch.bound >= 0.0
    requires UsesAtMost(Return(ctx, w, t, reply).log, watch.limit.metric, watch.bound)
    ensures UsesAtMost(w.log, watch.limit.metric, watch.bound)
    ensures Spent(Return(ctx, w, t, reply).ledger, watch)
      <= Spent(w.ledger, watch) + (if ProfileFor(ctx, t) == watch.limit.profileId then watch.bound else 0.0)
  {
    ReturnLedger(ctx, w, t, reply);
    if reply.execution.Returned? {
      var entry := Entry(ProfileFor(ctx, t), reply.execution.usage);
      assert entry in w.log + [entry];
      RecordedTotals(w.ledger, ProfileFor(ctx, t), reply.execution.usage, watch.limit.profileId, watch.limit.metric);
    }
  }

  /** Any other step leaves the ledger alone and admits nobody. */
  lemma OtherBounded(ctx: Context, batch: seq<TaskPlan>, w: World, t: TaskPlan, e: Effect, accepts: bool, watch: Watch,
        parallel: nat)
    requires Watching(ctx, watch)
    requires t in batch && UniqueIds(batch) && t.id in w.stages
    requires e.ledger == w.ledger && e.log == w.log
    requires (Charging(e.stored) ==> Charging(w.stages[t.id])) && !(e.emits.Some? && Charging(e.failed))
    requires Bounded(ctx, batch, w, watch, parallel)
    ensures Bounded(ctx, batch, Apply(ctx.campaignId, w, t.id, e, accepts), watch, parallel)
  {
    var p := watch.limit.profileId;
    var after := Apply(ctx.campaignId, w, t.id, e, accepts);
    InFlightAfter(ctx, batch, w, after, t, p);
    SubsetSize(InFlight(ctx, batch, after, p), InFlight(ctx, batch, w, p));
    TimesMonotone(|InFlight(ctx, batch, after, p)|, |InFlight(ctx, batch, w, p)|, watch.bound);
  }

  lemma StepBounded(ctx: Context, batch: seq<TaskPlan>, w: World, t: TaskPlan, reply: Reply, watch: Watch,
        parallel: nat)
    requires Watching(ctx, watch) && |batch| <= parallel
    requires t in batch && UniqueIds(batch) && t.id in w.stages
    requires Bounded(ctx, batch, w, watch, parallel)
    ensures Bounded(ctx, batch, TaskStep(ctx, w, t, reply), watch, parallel)
  {
    match w.stages[t.id]
    case Waiting => AdmitBounded(ctx, batch, w, t, reply.accepts, watch, parallel);
    case Executing => ReturnBounded(ctx, batch, w, t, reply, watch, parallel);
    case _ => OtherBounded(ctx, batch, w, t, EffectOf(ctx, w, t, reply), reply.accepts, watch, parallel);
  }

  /** The ledger is exactly what the executions recorded. */
  ghost predicate LedgerIsLog(w: World) {
    w.ledger == RecordedAll(Ledger(map[], {}), w.log)
  }

  lemma StepLedger(ctx: Context, w: World, t: TaskPlan, reply: Reply)
    requires t.id in w.stages && LedgerIsLog(w)
    ensures LedgerIsLog(TaskStep(ctx, w, t, reply))
  {
    hide Return, Recorded, Admit, JournalAfter;
    if w.stages[t.id].Executing? {
      ReturnLedger(ctx, w, t, reply);
      if reply.execution.Returned? {
        var entry := Entry(ProfileFor(ctx, t), reply.execution.usage);
        assert (w.log + [entry])[..|w.log|] == w.log;
      }
    } else if w.stages[t.id].Waiting? {
      AdmitShape(ctx, w, t);
    }
  }

}
