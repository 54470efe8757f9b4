/** A batch as it unfolds: the worlds it goes through, the reply each step gets, and what those replies decide. */
module BatchTrace {
  import opened Wrappers
  import opened DependencyGraph
  import opened CampaignPlan
  import opened CampaignEvents
  import opened EventWriter
  import opened CampaignBudget
  import opened TaskExecution
  import opened BatchBudget
  import opened RunState

  datatype Move = Move(task: TaskPlan, reply: Reply)

  /** The world before each move, and the one after the last. */
  datatype Trace = Trace(batch: seq<TaskPlan>, worlds: seq<World>, moves: seq<Move>)

  ghost predicate StepsAt(ctx: Context, tr: Trace, i: int) {
    && 0 <= i < |tr.moves| && |tr.worlds| == |tr.moves| + 1
    && tr.moves[i].task in tr.batch && tr.moves[i].task.id in tr.worlds[i].stages
    && tr.worlds[i + 1] == TaskStep(ctx, tr.worlds[i], tr.moves[i].task, tr.moves[i].reply)
  }

  /** Any unfinished task may have moved next, and any port may have answered anything. */
  ghost predicate Unfolds(ctx: Context, tr: Trace) {
    && UniqueIds(tr.batch)
    && |tr.worlds| == |tr.moves| + 1
    && tr.worlds[0].stages == FreshStages(tr.batch) && LedgerIsLog(tr.worlds[0])
    && forall i :: 0 <= i < |tr.moves| ==> StepsAt(ctx, tr, i)
  }

  function First(tr: Trace): World
    requires tr.worlds != []
  {
    tr.worlds[0]
  }

  function Last(tr: Trace): World
    requires tr.worlds != []
  {
    tr.worlds[|tr.worlds| - 1]
  }

  lemma Extended(ctx: Context, tr: Trace, t: TaskPlan, reply: Reply)
    requires Unfolds(ctx, tr) && t in tr.batch && t.id in Last(tr).stages
    ensures Unfolds(ctx, Trace(tr.batch, tr.worlds + [TaskStep(ctx, Last(tr), t, reply)], tr.moves + [Move(t, reply)]))
  {
    hide TaskStep, LedgerIsLog, FreshStages;
    var longer := Trace(tr.batch, tr.worlds + [TaskStep(ctx, Last(tr), t, reply)], tr.moves + [Move(t, reply)]);
    forall i | 0 <= i < |longer.moves|
      ensures StepsAt(ctx, longer, i)
    {
      if i < |tr.moves| {
        assert StepsAt(ctx, tr, i);
      }
    }
  }

  // What a single step decides.

  /** The worker came back, with measurements that can be recorded. */
  ghost predicate Measured(e: Execution) {
    e.Returned? && forall m :: ValidMeasure(MeasureOf(e.usage, m))
  }

  /** A limit of the profile is used up, and the mode cares. */
  ghost predicate UsedUp(ctx: Context, log: seq<Entry>, p: ProfileId) {
    !ctx.mode.Observe? && Reached(ctx.limits, log, p)
  }

  /** In hard-stop mode, what the worker used is the last its profile may use. */
  ghost predicate Exhausts(ctx: Context, log: seq<Entry>, p: ProfileId, e: Execution) {
    ctx.mode.HardStop? && Measured(e) && Reached(ctx.limits, log + [Entry(p, e.usage)], p)
  }

  /** A newcomer is turned away. */
  ghost predicate Refused(ctx: Context, w: World, t: TaskPlan) {
    w.hardStop || UsedUp(ctx, w.log, ProfileFor(ctx, t))
  }

  ghost predicate Stops(ctx: Context, w: World, t: TaskPlan, e: Execution) {
    Exhausts(ctx, w.log, ProfileFor(ctx, t), e)
  }

  /** Everything it takes to go on to a commit. */
  ghost predicate MayCommit(ctx: Context, w: World, t: TaskPlan, reply: Reply) {
    && Measured(reply.execution) && !Stops(ctx, w, t, reply.execution)
    && reply.execution.status.WorkerSucceeded? && reply.proofsValid && ctx.allowCommits
  }

  /** How it ends otherwise: the budget comes first, then the worker's own status, the proofs, the authorization. */
  ghost function FailureFor(ctx: Context, w: World, t: TaskPlan, reply: Reply): FailureKind
    requires Measured(reply.execution)
  {
    if Stops(ctx, w, t, reply.execution) then TaskBudgetStopped
    else if reply.execution.status.WorkerCancelled? then TaskCancelled
    else if reply.execution.status.WorkerBlocked? then TaskBlocked
    else if reply.execution.status.WorkerFailed? || !reply.proofsValid then TaskFailed
    else TaskBlocked
  }

  /** Admission, read off the records so far. */
  lemma AdmissionDecides(ctx: Context, w: World, t: TaskPlan, reply: Reply)
    requires t.id in w.stages && w.stages[t.id].Waiting? && LedgerIsLog(w)
    ensures var after, admitted := TaskStep(ctx, w, t, reply),
        !Refused(ctx, w, t) && ProfileFor(ctx, t) in ctx.runnable;
      && (after.stages[t.id].Allocating? <==> admitted)
      && (admitted ==> after == w.(stages := w.stages[t.id := Allocating]))
      && (!admitted ==>
           var kind := if Refused(ctx, w, t) then TaskBudgetStopped else TaskBlocked;
           && after.journal == Emitted(ctx.campaignId, w.journal, Request(kind, Some(t.id)), reply.accepts)
           && after.stages[t.id] == (if after.journal.broken then Rejected else Done(None))
           && after.hardStop == w.hardStop && after.ledger == w.ledger && after.log == w.log)
  {
    hide Reached, RecordedAll;
    DecisionOnSums(ctx.mode, ctx.limits, w.log, ProfileFor(ctx, t));
  }

  /** The return of a worker: what is recorded, whether the hard stop is raised, and where the task goes. */
  lemma ReturnDecides(ctx: Context, w: World, t: TaskPlan, reply: Reply)
    requires t.id in w.stages && w.stages[t.id].Executing? && LedgerIsLog(w)
    ensures var after := TaskStep(ctx, w, t, reply);
      && (after.hardStop <==> w.hardStop || Stops(ctx, w, t, reply.execution))
      && after.log == w.log +
           (if reply.execution.Returned? then [Entry(ProfileFor(ctx, t), reply.execution.usage)] else [])
      && (Measured(reply.execution) ==>
           && after.journal == w.journal
           && after.stages[t.id] ==
                if MayCommit(ctx, w, t, reply) then Committing else Settling(FailureFor(ctx, w, t, reply)))
      && (!Measured(reply.execution) ==>
           && after.journal == Emitted(ctx.campaignId, w.journal, Request(TaskFailed, Some(t.id)), reply.accepts)
           && after.stages[t.id] == Done(None))
  {
    hide Reached, RecordedAll, Decision, Recorded;
    if reply.execution.Returned? {
      var p, usage := ProfileFor(ctx, t), reply.execution.usage;
      var longer := w.log + [Entry(p, usage)];
      assert longer[..|w.log|] == w.log;
      assert RecordedAll(Ledger(map[], {}), longer) == Recorded(w.ledger, p, usage).0 by {
        RecordedOneMore(w.log, Entry(p, usage));
      }
      RecordedTotals(w.ledger, p, usage, p, Calls);
      DecisionOnSums(ctx.mode, ctx.limits, longer, p);
    }
  }

  lemma RecordedOneMore(log: seq<Entry>, e: Entry)
    ensures RecordedAll(Ledger(map[], {}), log + [e]) ==
      Recorded(RecordedAll(Ledger(map[], {}), log), e.profileId, e.usage).0
  {
    hide Recorded;
    assert (log + [e])[..|log|] == log;
  }

  /** The remaining steps: each saves an attempt and reports; without the one, or the workspace or commit it needs, the
      task fails. */
  lemma ReportDecides(ctx: Context, w: World, t: TaskPlan, reply: Reply)
    requires t.id in w.stages
    requires !w.stages[t.id].Waiting? && !w.stages[t.id].Executing? && !Finished(w.stages[t.id])
    ensures var after, s := TaskStep(ctx, w, t, reply), w.stages[t.id];
      var fine := reply.saved && (s.Allocating? ==> reply.workspace) && (s.Committing? ==> reply.commit.Some?);
      var kind := if !fine then TaskFailed else match s
        case Allocating => TaskPrepared
        case PreparedAttempt => TaskStarted
        case Settling(failure) => failure
        case _ => TaskSucceeded;
      && after.journal == Emitted(ctx.campaignId, w.journal, Request(kind, Some(t.id)), reply.accepts)
      && after.hardStop == w.hardStop && after.ledger == w.ledger && after.log == w.log
      && after.stages[t.id] ==
           if after.journal.broken || TerminalFailure(kind) then Done(None)
           else if s.Allocating? then PreparedAttempt
           else if s.PreparedAttempt? then Executing
           else Done(reply.commit)
  {
  }

  // Along a trace.

  lemma {:induction false} LedgerAlong(ctx: Context, tr: Trace, n: nat)
    requires Unfolds(ctx, tr) && n <= |tr.moves|
    ensures LedgerIsLog(tr.worlds[n]) && tr.worlds[n].stages.Keys == Ids(tr.batch)
  {
    hide TaskStep, RecordedAll, Ids;
    if n == 0 {
      FreshKeys(tr.batch);
    } else {
      LedgerAlong(ctx, tr, n - 1);
      assert StepsAt(ctx, tr, n - 1);
      StepLedger(ctx, tr.worlds[n - 1], tr.moves[n - 1].task, tr.moves[n - 1].reply);
      StepProgress(ctx, tr.worlds[n - 1], tr.moves[n - 1].task, tr.moves[n - 1].reply);
    }
  }

  lemma FreshKeys(batch: seq<TaskPlan>)
    ensures FreshStages(batch).Keys == Ids(batch)
    ensures forall id :: id in FreshStages(batch) ==> FreshStages(batch)[id].Waiting?
  {
  }

  /** Move `i` is one of the task. */
  ghost predicate Own(tr: Trace, i: int, id: Id) {
    0 <= i < |tr.moves| && i < |tr.worlds| && tr.moves[i].task.id == id && id in tr.worlds[i].stages
  }

  function StageAt(tr: Trace, n: nat, id: Id): Stage
    requires n < |tr.worlds| && id in tr.worlds[n].stages
  {
    tr.worlds[n].stages[id]
  }

  /** Every other move leaves the task where it is. */
  lemma OthersKeepStage(ctx: Context, tr: Trace, n: nat, id: Id)
    requires Unfolds(ctx, tr) && n < |tr.moves| && id in Ids(tr.batch) && tr.moves[n].task.id != id
    ensures id in tr.worlds[n].stages && id in tr.worlds[n + 1].stages
    ensures StageAt(tr, n + 1, id) == StageAt(tr, n, id)
  {
    hide TaskStep, RecordedAll, Ids;
    LedgerAlong(ctx, tr, n);
    assert StepsAt(ctx, tr, n);
    StepProgress(ctx, tr.worlds[n], tr.moves[n].task, tr.moves[n].reply);
  }

  /** The move at which the worker of the task came back fit for a commit. */
  ghost predicate EarnsAt(ctx: Context, tr: Trace, i: int, id: Id) {
    && Own(tr, i, id) && StageAt(tr, i, id).Executing?
    && MayCommit(ctx, tr.worlds[i], tr.moves[i].task, tr.moves[i].reply)
  }

  /** The move at which git made the commit and the success was stored. */
  ghost predicate CommitsAt(tr: Trace, j: int, id: Id, c: Commit) {
    && Own(tr, j, id) && StageAt(tr, j, id).Committing?
    && tr.moves[j].reply.commit == Some(c) && tr.moves[j].reply.saved
    && tr.moves[j].reply.accepts && !tr.worlds[j].journal.broken
  }

  /** The move at which the task's record raises the hard stop. */
  ghost predicate RaisesAt(ctx: Context, tr: Trace, i: int, id: Id) {
    && Own(tr, i, id) && StageAt(tr, i, id).Executing?
    && Stops(ctx, tr.worlds[i], tr.moves[i].task, tr.moves[i].reply.execution)
  }

  /** The move at which the worker of the task came back and the task failed. */
  ghost predicate FailsAt(ctx: Context, tr: Trace, i: int, id: Id, kind: FailureKind) {
    && Own(tr, i, id) && StageAt(tr, i, id).Executing?
    && Measured(tr.moves[i].reply.execution)
    && !MayCommit(ctx, tr.worlds[i], tr.moves[i].task, tr.moves[i].reply)
    && FailureFor(ctx, tr.worlds[i], tr.moves[i].task, tr.moves[i].reply) == kind
  }

  /** A task that is about to commit has earned it... */
  lemma {:induction false} WhyCommitting(ctx: Context, tr: Trace, n: nat, id: Id) returns (i: nat)
    requires Unfolds(ctx, tr) && n <= |tr.moves| && id in tr.worlds[n].stages && StageAt(tr, n, id).Committing?
    ensures i < n && EarnsAt(ctx, tr, i, id)
  {
    hide TaskStep, RecordedAll, Ids, MayCommit, FailureFor, Stops, Measured;
    LedgerAlong(ctx, tr, n);
    FreshKeys(tr.batch);
    i := n - 1;
    LedgerAlong(ctx, tr, i);
    if tr.moves[i].task.id != id {
      OthersKeepStage(ctx, tr, i, id);
      i := WhyCommitting(ctx, tr, i, id);
    } else {
      assert StepsAt(ctx, tr, i);
      StageDecides(ctx, tr, i, id);
    }
  }

  /** ...and one that is about to fail has a reason. */
  lemma {:induction false} WhySettling(ctx: Context, tr: Trace, n: nat, id: Id) returns (i: nat)
    requires Unfolds(ctx, tr) && n <= |tr.moves| && id in tr.worlds[n].stages && StageAt(tr, n, id).Settling?
    ensures i < n && FailsAt(ctx, tr, i, id, StageAt(tr, n, id).verdict)
  {
    hide TaskStep, RecordedAll, Ids, MayCommit, FailureFor, Stops, Measured;
    LedgerAlong(ctx, tr, n);
    FreshKeys(tr.batch);
    i := n - 1;
    LedgerAlong(ctx, tr, i);
    if tr.moves[i].task.id != id {
      OthersKeepStage(ctx, tr, i, id);
      i := WhySettling(ctx, tr, i, id);
    } else {
      assert StepsAt(ctx, tr, i);
      StageDecides(ctx, tr, i, id);
    }
  }

  /** Where an own move can lead. */
  lemma StageDecides(ctx: Context, tr: Trace, i: nat, id: Id)
    requires Unfolds(ctx, tr) && Own(tr, i, id)
    ensures id in tr.worlds[i + 1].stages
    ensures StageAt(tr, i + 1, id).Committing? ==> EarnsAt(ctx, tr, i, id)
    ensures StageAt(tr, i + 1, id).Settling? ==> FailsAt(ctx, tr, i, id, StageAt(tr, i + 1, id).verdict)
    ensures Finished(StageAt(tr, i, id)) ==> StageAt(tr, i + 1, id) == StageAt(tr, i, id)
    ensures forall c :: StageAt(tr, i + 1, id) == Done(Some(c)) ==>
      StageAt(tr, i, id) == Done(Some(c)) || CommitsAt(tr, i, id, c)
    ensures forall c :: CommitsAt(tr, i, id, c) ==> StageAt(tr, i + 1, id) == Done(Some(c))
    ensures EarnsAt(ctx, tr, i, id) ==> StageAt(tr, i + 1, id).Committing?
    ensures forall k :: FailsAt(ctx, tr, i, id, k) ==> StageAt(tr, i + 1, id) == Settling(k)
    ensures StageAt(tr, i + 1, id).Waiting? ==> false
  {
    hide TaskStep, RecordedAll, Ids, MayCommit, FailureFor, Stops, Measured, Refused;
    LedgerAlong(ctx, tr, i);
    assert StepsAt(ctx, tr, i);
    var w, t, reply := tr.worlds[i], tr.moves[i].task, tr.moves[i].reply;
    StepProgress(ctx, w, t, reply);
    if w.stages[id].Waiting? {
      AdmissionDecides(ctx, w, t, reply);
    } else if w.stages[id].Executing? {
      ReturnDecides(ctx, w, t, reply);
      if MayCommit(ctx, w, t, reply) {
        CommitIsMeasured(ctx, w, t, reply);
      }
    } else if Finished(w.stages[id]) {
      FinishedStays(ctx, w, t, reply);
    } else {
      ReportDecides(ctx, w, t, reply);
    }
  }

  lemma CommitIsMeasured(ctx: Context, w: World, t: TaskPlan, reply: Reply)
    requires MayCommit(ctx, w, t, reply)
    ensures Measured(reply.execution)
  {
  }

  lemma FinishedStays(ctx: Context, w: World, t: TaskPlan, reply: Reply)
    requires t.id in w.stages && Finished(w.stages[t.id])
    ensures TaskStep(ctx, w, t, reply) == w
  {
    assert w.stages[t.id := w.stages[t.id]] == w.stages;
  }

  lemma {:induction false} WhyDone(ctx: Context, tr: Trace, n: nat, id: Id, c: Commit) returns (j: nat)
    requires Unfolds(ctx, tr) && n <= |tr.moves| && id in tr.worlds[n].stages && StageAt(tr, n, id) == Done(Some(c))
    ensures j < n && CommitsAt(tr, j, id, c)
  {
    hide TaskStep, RecordedAll, Ids;
    LedgerAlong(ctx, tr, n);
    FreshKeys(tr.batch);
    j := n - 1;
    LedgerAlong(ctx, tr, j);
    if tr.moves[j].task.id != id {
      OthersKeepStage(ctx, tr, j, id);
      j := WhyDone(ctx, tr, j, id, c);
    } else {
      StageDecides(ctx, tr, j, id);
      if StageAt(tr, j, id) == Done(Some(c)) {
        j := WhyDone(ctx, tr, j, id, c);
      }
    }
  }

  lemma {:induction false} FinishedForGood(ctx: Context, tr: Trace, i: nat, n: nat, id: Id)
    requires Unfolds(ctx, tr) && i <= n <= |tr.moves| && id in tr.worlds[i].stages && Finished(StageAt(tr, i, id))
    ensures id in tr.worlds[n].stages && StageAt(tr, n, id) == StageAt(tr, i, id)
    decreases n
  {
    hide TaskStep, RecordedAll, Ids, CommitsAt, FailsAt, EarnsAt;
    if i < n {
      FinishedForGood(ctx, tr, i, n - 1, id);
      LedgerAlong(ctx, tr, n - 1);
      if tr.moves[n - 1].task.id != id {
        OthersKeepStage(ctx, tr, n - 1, id);
      } else {
        StageDecides(ctx, tr, n - 1, id);
      }
    }
  }

  /** The worker of the task came back fit for a commit, and then git made this one. */
  ghost predicate Earned(ctx: Context, tr: Trace, id: Id, c: Commit) {
    exists i, j :: i < j && EarnsAt(ctx, tr, i, id) && CommitsAt(tr, j, id, c)
  }

  /** In every interleaving, a task ends with a commit exactly if its worker succeeded, measured its usage, left the
      budget unstopped and brought valid proofs, commits are allowed, and git then made this very commit. */
  lemma CommitIsEarned(ctx: Context, tr: Trace, id: Id, c: Commit)
    requires Unfolds(ctx, tr) && id in Last(tr).stages
    ensures Last(tr).stages[id] == Done(Some(c)) <==> Earned(ctx, tr, id, c)
  {
    hide TaskStep, RecordedAll, Ids, MayCommit, Unfolds;
    var n := |tr.moves|;
    assert |tr.worlds| == n + 1 by {
      TraceLength(ctx, tr);
    }
    if Last(tr).stages[id] == Done(Some(c)) {
      var j := WhyDone(ctx, tr, n, id, c);
      var i := WhyCommitting(ctx, tr, j, id);
    }
    if i, j :| i < j && EarnsAt(ctx, tr, i, id) && CommitsAt(tr, j, id, c) {
      StageDecides(ctx, tr, j, id);
      FinishedForGood(ctx, tr, j + 1, n, id);
    }
  }

  lemma TraceLength(ctx: Context, tr: Trace)
    requires Unfolds(ctx, tr)
    ensures |tr.worlds| == |tr.moves| + 1
  {
  }

  // What the journal says, and why.

  /** The event that move `n` stores. */
  ghost predicate Stores(ctx: Context, tr: Trace, n: int, kind: EventKind, id: Id) {
    && Own(tr, n, id) && n + 1 < |tr.worlds|
    && tr.worlds[n + 1].journal.events == tr.worlds[n].journal.events +
         [EventFor(ctx.campaignId, Request(kind, Some(id)), |tr.worlds[n].journal.events| + 1)]
  }

  /** The move at which the task was let in. */
  ghost predicate AdmitsAt(ctx: Context, tr: Trace, i: int, id: Id) {
    && Own(tr, i, id) && StageAt(tr, i, id).Waiting?
    && !Refused(ctx, tr.worlds[i], tr.moves[i].task) && ProfileFor(ctx, tr.moves[i].task) in ctx.runnable
  }

  lemma {:induction false} WhyAdmitted(ctx: Context, tr: Trace, n: nat, id: Id) returns (i: nat)
    requires Unfolds(ctx, tr) && n <= |tr.moves| && id in tr.worlds[n].stages
    requires !StageAt(tr, n, id).Waiting? && !Finished(StageAt(tr, n, id))
    ensures i < n && AdmitsAt(ctx, tr, i, id)
  {
    hide TaskStep, RecordedAll, Ids, Refused, FailsAt, EarnsAt, CommitsAt;
    LedgerAlong(ctx, tr, n);
    FreshKeys(tr.batch);
    i := n - 1;
    LedgerAlong(ctx, tr, i);
    if tr.moves[i].task.id != id {
      OthersKeepStage(ctx, tr, i, id);
      i := WhyAdmitted(ctx, tr, i, id);
    } else {
      assert StepsAt(ctx, tr, i);
      StageDecides(ctx, tr, i, id);
      if StageAt(tr, i, id).Waiting? {
        AdmissionDecides(ctx, tr.worlds[i], tr.moves[i].task, tr.moves[i].reply);
      } else {
        i := WhyAdmitted(ctx, tr, i, id);
      }
    }
  }

  /** What a port withholds at move `n`, so that the task fails there and then. */
  ghost predicate PortFails(tr: Trace, n: int, id: Id)
    requires Own(tr, n, id)
  {
    var s, reply := StageAt(tr, n, id), tr.moves[n].reply;
    if s.Executing? then !Measured(reply.execution)
    else !reply.saved || (s.Allocating? && !reply.workspace) || (s.Committing? && reply.commit.None?)
  }

  /** The reason an event of a task has. */
  ghost predicate Justified(ctx: Context, tr: Trace, n: int, kind: EventKind, id: Id)
    requires Own(tr, n, id)
  {
    var s, w, t := StageAt(tr, n, id), tr.worlds[n], tr.moves[n].task;
    match kind
    case TaskPrepared => exists i :: i < n && AdmitsAt(ctx, tr, i, id)
    case TaskStarted => exists i :: i < n && AdmitsAt(ctx, tr, i, id)
    case TaskSucceeded => exists i :: i < n && EarnsAt(ctx, tr, i, id)
    case TaskBudgetStopped => (s.Waiting? && Refused(ctx, w, t)) || exists i :: i < n && RaisesAt(ctx, tr, i, id)
    case TaskBlocked =>
      || (s.Waiting? && !Refused(ctx, w, t) && ProfileFor(ctx, t) !in ctx.runnable)
      || exists i :: i < n && FailsAt(ctx, tr, i, id, TaskBlocked)
    case TaskCancelled => exists i :: i < n && FailsAt(ctx, tr, i, id, TaskCancelled)
    case TaskFailed =>
      !s.Waiting? && (PortFails(tr, n, id) || exists i :: i < n && FailsAt(ctx, tr, i, id, TaskFailed))
    case _ => false
  }

  /** Whatever the interleaving, no event of a batch comes without its reason. */
  lemma EventHasReason(ctx: Context, tr: Trace, n: nat, kind: EventKind, id: Id)
    requires Unfolds(ctx, tr) && Stores(ctx, tr, n, kind, id)
    ensures Justified(ctx, tr, n, kind, id)
  {
    hide TaskStep, RecordedAll, Ids, Refused, MayCommit, Measured, FailureFor, Stops;
    LedgerAlong(ctx, tr, n);
    assert StepsAt(ctx, tr, n);
    var w, t, reply, s := tr.worlds[n], tr.moves[n].task, tr.moves[n].reply, StageAt(tr, n, id);
    var events := tr.worlds[n + 1].journal.events;
    assert events[|w.journal.events|].kind == kind;
    if s.Waiting? {
      AdmissionDecides(ctx, w, t, reply);
    } else if s.Executing? {
      ReturnDecides(ctx, w, t, reply);
    } else if Finished(s) {
      FinishedStays(ctx, w, t, reply);
    } else {
      ReportDecides(ctx, w, t, reply);
      var i := WhyAdmitted(ctx, tr, n, id);
      if s.Committing? {
        i := WhyCommitting(ctx, tr, n, id);
      } else if s.Settling? {
        i := WhySettling(ctx, tr, n, id);
        StoppedRaises(ctx, tr, i, id);
      }
    }
  }

  lemma StoppedRaises(ctx: Context, tr: Trace, i: nat, id: Id)
    ensures FailsAt(ctx, tr, i, id, TaskBudgetStopped) <==> RaisesAt(ctx, tr, i, id)
  {
    hide Reached;
  }

  // The hard stop.

  ghost predicate RaisedBy(ctx: Context, tr: Trace, n: int) {
    exists i, id :: i < n && RaisesAt(ctx, tr, i, id)
  }

  /** The hard stop is up exactly if it was up before the batch, or a record has used up a limit in hard-stop mode. */
  lemma {:induction false} HardStopIsRaised(ctx: Context, tr: Trace, n: nat)
    requires Unfolds(ctx, tr) && n <= |tr.moves|
    ensures tr.worlds[n].hardStop <==> First(tr).hardStop || RaisedBy(ctx, tr, n)
  {
    hide TaskStep, RecordedAll, Ids, Stops, MayCommit, Measured, FailureFor, Refused;
    if n > 0 {
      HardStopIsRaised(ctx, tr, n - 1);
      LedgerAlong(ctx, tr, n - 1);
      assert StepsAt(ctx, tr, n - 1);
      var w, t, reply := tr.worlds[n - 1], tr.moves[n - 1].task, tr.moves[n - 1].reply;
      HardStopStep(ctx, w, t, reply);
      if tr.worlds[n].hardStop && !w.hardStop {
        assert RaisesAt(ctx, tr, n - 1, t.id);
      }
      if i, id :| i < n && RaisesAt(ctx, tr, i, id) {
        if i == n - 1 {
          assert id == t.id;
        } else {
          assert RaisedBy(ctx, tr, n - 1);
        }
      }
    }
  }

  lemma HardStopStep(ctx: Context, w: World, t: TaskPlan, reply: Reply)
    requires t.id in w.stages && LedgerIsLog(w)
    ensures TaskStep(ctx, w, t, reply).hardStop <==>
      w.hardStop || (w.stages[t.id].Executing? && Stops(ctx, w, t, reply.execution))
  {
    hide TaskStep, RecordedAll, Stops, MayCommit, Measured, FailureFor, Refused;
    if w.stages[t.id].Waiting? {
      AdmissionDecides(ctx, w, t, reply);
    } else if w.stages[t.id].Executing? {
      ReturnDecides(ctx, w, t, reply);
    } else if Finished(w.stages[t.id]) {
      FinishedStays(ctx, w, t, reply);
    } else {
      ReportDecides(ctx, w, t, reply);
    }
  }

  /** The task whose record raises it never succeeds. */
  lemma {:induction false} RaiserNeverSucceeds(ctx: Context, tr: Trace, i: nat, n: nat, id: Id)
    requires Unfolds(ctx, tr) && RaisesAt(ctx, tr, i, id) && i < n <= |tr.moves|
    ensures id in tr.worlds[n].stages && StageAt(tr, n, id) in {Settling(TaskBudgetStopped), Done(None)}
    decreases n
  {
    hide TaskStep, RecordedAll, Ids, FailsAt, EarnsAt, CommitsAt, RaisesAt;
    LedgerAlong(ctx, tr, n - 1);
    if n == i + 1 {
      StoppedRaises(ctx, tr, i, id);
      RaiserIsOwn(ctx, tr, i, id);
      StageDecides(ctx, tr, i, id);
    } else {
      RaiserNeverSucceeds(ctx, tr, i, n - 1, id);
      if tr.moves[n - 1].task.id != id {
        OthersKeepStage(ctx, tr, n - 1, id);
      } else if Finished(StageAt(tr, n - 1, id)) {
        FinishedForGood(ctx, tr, n - 1, n, id);
      } else {
        assert StepsAt(ctx, tr, n - 1);
        ReportDecides(ctx, tr.worlds[n - 1], tr.moves[n - 1].task, tr.moves[n - 1].reply);
        LedgerAlong(ctx, tr, n);
      }
    }
  }

  lemma RaiserIsOwn(ctx: Context, tr: Trace, i: nat, id: Id)
    requires RaisesAt(ctx, tr, i, id)
    ensures Own(tr, i, id)
  {
  }

  /** Whoever still waits when the hard stop is up is turned away and never starts. */
  lemma {:induction false} WaitingIsTurnedAway(ctx: Context, tr: Trace, i: nat, n: nat, id: Id)
    requires Unfolds(ctx, tr) && i <= n <= |tr.moves| && tr.worlds[i].hardStop
    requires id in tr.worlds[i].stages && StageAt(tr, i, id).Waiting?
    ensures tr.worlds[n].hardStop
    ensures id in tr.worlds[n].stages && StageAt(tr, n, id) in {Waiting, Done(None), Rejected}
    ensures forall m :: i <= m < n ==> !Stores(ctx, tr, m, TaskStarted, id)
    decreases n
  {
    hide TaskStep, RecordedAll, Ids, Stops, Measured;
    if i < n {
      WaitingIsTurnedAway(ctx, tr, i, n - 1, id);
      LedgerAlong(ctx, tr, n - 1);
      assert StepsAt(ctx, tr, n - 1);
      var w, t, reply := tr.worlds[n - 1], tr.moves[n - 1].task, tr.moves[n - 1].reply;
      HardStopStep(ctx, w, t, reply);
      if t.id != id {
        OthersKeepStage(ctx, tr, n - 1, id);
      } else if w.stages[id].Waiting? {
        AdmissionDecides(ctx, w, t, reply);
        LedgerAlong(ctx, tr, n);
        RefusalStartsNothing(ctx, tr, n - 1, id);
      } else {
        FinishedStays(ctx, w, t, reply);
      }
    }
  }

  lemma EventNamesKind(ctx: Context, tr: Trace, n: int, kind: EventKind, id: Id)
    ensures Stores(ctx, tr, n, kind, id) ==>
      |tr.worlds[n + 1].journal.events| == |tr.worlds[n].journal.events| + 1 &&
        tr.worlds[n + 1].journal.events[|tr.worlds[n].journal.events|].kind == kind
  {
  }

  lemma RefusalStartsNothing(ctx: Context, tr: Trace, n: nat, id: Id)
    requires Unfolds(ctx, tr) && Own(tr, n, id) && StageAt(tr, n, id).Waiting?
    ensures !Stores(ctx, tr, n, TaskStarted, id)
  {
    hide TaskStep, RecordedAll, Ids, Refused;
    LedgerAlong(ctx, tr, n);
    assert StepsAt(ctx, tr, n);
    AdmissionDecides(ctx, tr.worlds[n], tr.moves[n].task, tr.moves[n].reply);
    EventNamesKind(ctx, tr, n, TaskStarted, id);
  }

  /** Only hard-stop mode ever raises it; a record in another mode leaves the task to its own outcome. */
  lemma OtherModesNeverStop(ctx: Context, tr: Trace, n: nat, id: Id)
    requires Unfolds(ctx, tr) && n <= |tr.moves| && !ctx.mode.HardStop? && !First(tr).hardStop
    ensures n < |tr.worlds| && !tr.worlds[n].hardStop
    ensures id in tr.worlds[n].stages ==> StageAt(tr, n, id) != Settling(TaskBudgetStopped)
    ensures ctx.mode.Observe? ==> !Stores(ctx, tr, n, TaskBudgetStopped, id)
  {
    hide TaskStep, RecordedAll, Ids, Measured, Unfolds, Reached;
    TraceLength(ctx, tr);
    HardStopIsRaised(ctx, tr, n);
    if id in tr.worlds[n].stages && StageAt(tr, n, id) == Settling(TaskBudgetStopped) {
      var i := WhySettling(ctx, tr, n, id);
      assert RaisesAt(ctx, tr, i, id) by {
        StoppedRaises(ctx, tr, i, id);
      }
      assert false;
    }
    if ctx.mode.Observe? && Stores(ctx, tr, n, TaskBudgetStopped, id) {
      EventHasReason(ctx, tr, n, TaskBudgetStopped, id);
      assert false;
    }
  }

  // What a batch adds to the journal.

  /** The events of a step: as they were, or one more of the task that moved. */
  lemma StepStores(ctx: Context, tr: Trace, n: nat)
    requires Unfolds(ctx, tr) && n < |tr.moves|
    ensures var before, after, id := tr.worlds[n].journal, tr.worlds[n + 1].journal, tr.moves[n].task.id;
      && Own(tr, n, id)
      && (after.events == before.events || exists kind :: IsTaskEvent(kind) && Stores(ctx, tr, n, kind, id))
      && (before.broken ==> after == before)
  {
    hide RecordedAll, EffectOf;
    assert StepsAt(ctx, tr, n);
    var w, t, reply := tr.worlds[n], tr.moves[n].task, tr.moves[n].reply;
    EffectIsProper(ctx, w, t, reply);
    var emits := EffectOf(ctx, w, t, reply).emits;
    if emits.Some? && tr.worlds[n + 1].journal.events != w.journal.events {
      assert Stores(ctx, tr, n, emits.value, t.id);
    }
  }

  lemma SuccessAtCommit(ctx: Context, tr: Trace, n: nat, id: Id)
    requires Unfolds(ctx, tr) && Own(tr, n, id)
    ensures Stores(ctx, tr, n, TaskSucceeded, id) <==>
      tr.moves[n].reply.commit.Some? && CommitsAt(tr, n, id, tr.moves[n].reply.commit.value)
  {
    hide TaskStep, RecordedAll, Ids, Refused, MayCommit, FailureFor, Stops, Measured;
    LedgerAlong(ctx, tr, n);
    assert StepsAt(ctx, tr, n);
    EventNamesKind(ctx, tr, n, TaskSucceeded, id);
    var w, t, reply, s := tr.worlds[n], tr.moves[n].task, tr.moves[n].reply, StageAt(tr, n, id);
    if s.Waiting? {
      AdmissionDecides(ctx, w, t, reply);
    } else if s.Executing? {
      ReturnDecides(ctx, w, t, reply);
    } else if Finished(s) {
      FinishedStays(ctx, w, t, reply);
    } else {
      ReportDecides(ctx, w, t, reply);
      if s.Committing? && reply.commit.Some? && reply.saved && reply.accepts && !w.journal.broken {
        assert CommitsAt(tr, n, id, reply.commit.value);
      }
    }
  }

  lemma {:induction false} SuccessesSince(ctx: Context, tr: Trace, n: nat, id: Id)
    requires Unfolds(ctx, tr) && n <= |tr.moves|
    ensures id in SucceededIn(tr.worlds[n].journal.events) <==>
      id in SucceededIn(First(tr).journal.events) || exists j, c :: j < n && CommitsAt(tr, j, id, c)
  {
    hide TaskStep, RecordedAll, Ids, Unfolds, SucceededIn, StartedIn, IsTaskEvent, CommitsAt;
    TraceLength(ctx, tr);
    if n > 0 {
      SuccessesSince(ctx, tr, n - 1, id);
      StepStores(ctx, tr, n - 1);
      var own := tr.moves[n - 1].task.id;
      SuccessAtCommit(ctx, tr, n - 1, own);
      var before, after := tr.worlds[n - 1].journal.events, tr.worlds[n].journal.events;
      if after != before {
        var kind :| IsTaskEvent(kind) && Stores(ctx, tr, n - 1, kind, own);
        ExtendSets(before, EventFor(ctx.campaignId, Request(kind, Some(own)), |before| + 1));
        EventNamesKind(ctx, tr, n - 1, kind, own);
        EventNamesKind(ctx, tr, n - 1, TaskSucceeded, own);
      } else {
        NothingStored(ctx, tr, n - 1);
      }
      if j, c :| j < n && CommitsAt(tr, j, id, c) {
        CommitIsOwn(tr, j, id, c);
        assert j < n - 1 || (own == id && Stores(ctx, tr, n - 1, TaskSucceeded, id));
        assert id in SucceededIn(after);
      }
      if id in SucceededIn(after) && id !in SucceededIn(before) {
        assert Stores(ctx, tr, n - 1, TaskSucceeded, id);
        assert CommitsAt(tr, n - 1, id, tr.moves[n - 1].reply.commit.value);
      }
    } else {
      forall j, c | CommitsAt(tr, j, id, c)
        ensures j >= 0
      {
        CommitIsOwn(tr, j, id, c);
      }
    }
  }

  lemma CommitIsOwn(tr: Trace, j: int, id: Id, c: Commit)
    requires CommitsAt(tr, j, id, c)
    ensures Own(tr, j, id) && tr.moves[j].reply.commit == Some(c)
  {
  }

  lemma NothingStored(ctx: Context, tr: Trace, n: nat)
    requires n + 1 < |tr.worlds| && tr.worlds[n + 1].journal.events == tr.worlds[n].journal.events
    ensures forall kind, id :: !Stores(ctx, tr, n, kind, id)
  {
  }

  /** The journal of a batch gains a success of a task exactly if the task earned a commit. */
  lemma SuccessIsEarned(ctx: Context, tr: Trace, id: Id)
    requires Unfolds(ctx, tr)
    ensures id in SucceededIn(Last(tr).journal.events) <==>
      id in SucceededIn(First(tr).journal.events) || exists c :: Earned(ctx, tr, id, c)
  {
    hide TaskStep, RecordedAll, Ids, MayCommit, Unfolds, SucceededIn;
    TraceLength(ctx, tr);
    var n := |tr.moves|;
    SuccessesSince(ctx, tr, n, id);
    if j, c :| j < n && CommitsAt(tr, j, id, c) {
      var i := WhyCommitting(ctx, tr, j, id);
      assert Earned(ctx, tr, id, c);
    }
  }

  lemma {:induction false} RankFalls(ctx: Context, tr: Trace, i: nat, n: nat, id: Id)
    requires Unfolds(ctx, tr) && i <= n <= |tr.moves| && id in tr.worlds[i].stages
    ensures id in tr.worlds[n].stages && Rank(StageAt(tr, n, id)) <= Rank(StageAt(tr, i, id))
    decreases n
  {
    hide TaskStep, RecordedAll, Ids;
    if i < n {
      RankFalls(ctx, tr, i, n - 1, id);
      LedgerAlong(ctx, tr, n - 1);
      assert StepsAt(ctx, tr, n - 1);
      StepProgress(ctx, tr.worlds[n - 1], tr.moves[n - 1].task, tr.moves[n - 1].reply);
      if Finished(StageAt(tr, n - 1, id)) {
        FinishedForGood(ctx, tr, n - 1, n, id);
      }
    }
  }

  /** Let in before, and not started yet. */
  ghost predicate LetIn(w: World, id: Id) {
    id in w.stages && (w.stages[id].Allocating? || w.stages[id].PreparedAttempt?)
  }

  /** Once the hard stop is up, only tasks that were let in before it still start. */
  lemma {:induction false} StartsAfterStop(ctx: Context, tr: Trace, i: nat, n: nat, id: Id)
    requires Unfolds(ctx, tr) && i <= n <= |tr.moves| && tr.worlds[i].hardStop
    ensures id in StartedIn(tr.worlds[n].journal.events) ==>
      id in StartedIn(tr.worlds[i].journal.events) || LetIn(tr.worlds[i], id)
    decreases n
  {
    hide TaskStep, RecordedAll, Ids, Unfolds, SucceededIn, StartedIn, IsTaskEvent, Stores;
    TraceLength(ctx, tr);
    if i < n {
      StartsAfterStop(ctx, tr, i, n - 1, id);
      StepStores(ctx, tr, n - 1);
      var own := tr.moves[n - 1].task.id;
      var before, after := tr.worlds[n - 1].journal.events, tr.worlds[n].journal.events;
      if after != before {
        var kind :| IsTaskEvent(kind) && Stores(ctx, tr, n - 1, kind, own);
        StoredEvent(ctx, tr, n - 1, kind, own);
        ExtendSets(before, EventFor(ctx.campaignId, Request(kind, Some(own)), |before| + 1));
        if kind.TaskStarted? {
          StarterWasLetIn(ctx, tr, i, n - 1, own);
        }
      }
    }
  }

  lemma StoredEvent(ctx: Context, tr: Trace, n: int, kind: EventKind, id: Id)
    requires Stores(ctx, tr, n, kind, id)
    ensures Own(tr, n, id) && n + 1 < |tr.worlds|
    ensures tr.worlds[n + 1].journal.events == tr.worlds[n].journal.events +
      [EventFor(ctx.campaignId, Request(kind, Some(id)), |tr.worlds[n].journal.events| + 1)]
  {
  }

  lemma StarterWasLetIn(ctx: Context, tr: Trace, i: nat, m: nat, id: Id)
    requires Unfolds(ctx, tr) && i <= m < |tr.moves| && tr.worlds[i].hardStop && Stores(ctx, tr, m, TaskStarted, id)
    ensures LetIn(tr.worlds[i], id)
  {
    hide TaskStep, RecordedAll, Ids, Stores, Refused, Measured, MayCommit, Stops;
    StoredEvent(ctx, tr, m, TaskStarted, id);
    LedgerAlong(ctx, tr, i);
    LedgerAlong(ctx, tr, m);
    assert StepsAt(ctx, tr, m);
    StarterWasPrepared(ctx, tr, m, id);
    RankFalls(ctx, tr, i, m, id);
    if StageAt(tr, i, id).Waiting? {
      WaitingIsTurnedAway(ctx, tr, i, m, id);
    }
  }

  lemma StarterWasPrepared(ctx: Context, tr: Trace, m: nat, id: Id)
    requires Unfolds(ctx, tr) && m < |tr.moves| && Stores(ctx, tr, m, TaskStarted, id)
    ensures id in tr.worlds[m].stages && StageAt(tr, m, id).PreparedAttempt?
  {
    hide RecordedAll, EffectOf;
    assert StepsAt(ctx, tr, m);
    EventNamesKind(ctx, tr, m, TaskStarted, id);
    EffectIsProper(ctx, tr.worlds[m], tr.moves[m].task, tr.moves[m].reply);
  }

}
