/** The campaign journal: its events, and the read model rebuilt from them. */
module CampaignEvents {
  import opened Wrappers
  import opened Sorting

  type Id = string

  datatype EventKind =
    | CampaignPlanned | CampaignAuthorized
    | TaskPrepared | TaskStarted | TaskSucceeded | TaskFailed | TaskBlocked | TaskBudgetStopped | TaskCancelled
    | CampaignBlocked | CampaignAwaitingApplication | CampaignCompleted

  datatype CampaignEvent = CampaignEvent(campaignId: Id, revision: nat, kind: EventKind, taskId: Option<Id>)

  datatype CampaignStatus = Planned | Authorized | Running | Blocked | AwaitingApplication | Completed

  datatype TaskStatus = Prepared | InProgress | Succeeded | Failed | BlockedTask | BudgetStopped | Cancelled

  datatype Progress = Progress(attempted: nat, succeeded: nat, failed: nat)

  datatype Projection = Projection(campaignId: Id, revision: nat, status: CampaignStatus, tasks: map<Id, TaskStatus>,
        progress: Progress)

  datatype ProjectionError = InvalidEvent | NotContiguous | PlannedTwice

  predicate IsTaskEvent(kind: EventKind) {
    kind.TaskPrepared? || kind.TaskStarted? || kind.TaskSucceeded? || kind.TaskFailed? || kind.TaskBlocked?
    || kind.TaskBudgetStopped? || kind.TaskCancelled?
  }

  predicate ValidEvent(e: CampaignEvent) {
    e.revision >= 1 && (IsTaskEvent(e.kind) <==> e.taskId.Some?)
  }

  function StatusOfTask(kind: EventKind): TaskStatus
    requires IsTaskEvent(kind)
  {
    match kind
    case TaskPrepared => Prepared
    case TaskStarted => InProgress
    case TaskSucceeded => Succeeded
    case TaskFailed => Failed
    case TaskBlocked => BlockedTask
    case TaskBudgetStopped => BudgetStopped
    case TaskCancelled => Cancelled
  }

  /** A cancelled task leaves the campaign status as it was. */
  function StatusAfter(kind: EventKind, before: CampaignStatus): CampaignStatus {
    match kind
    case CampaignPlanned => Planned
    case CampaignAuthorized => Authorized
    case TaskPrepared => Running
    case TaskStarted => Running
    case TaskSucceeded => Running
    case TaskFailed => Running
    case TaskBlocked => Blocked
    case TaskBudgetStopped => Blocked
    case TaskCancelled => before
    case CampaignBlocked => Blocked
    case CampaignAwaitingApplication => AwaitingApplication
    case CampaignCompleted => Completed
  }

  function TasksAfter(e: CampaignEvent, before: map<Id, TaskStatus>): map<Id, TaskStatus> {
    if IsTaskEvent(e.kind) && e.taskId.Some? then before[e.taskId.value := StatusOfTask(e.kind)] else before
  }

  function Tasks(events: seq<CampaignEvent>): map<Id, TaskStatus> {
    if events == [] then map[] else TasksAfter(events[|events| - 1], Tasks(events[..|events| - 1]))
  }

  function StatusOf(events: seq<CampaignEvent>): CampaignStatus {
    if events == [] then Planned else StatusAfter(events[|events| - 1].kind, StatusOf(events[..|events| - 1]))
  }

  function ProgressOf(tasks: map<Id, TaskStatus>): Progress {
    Progress(
      |set t | t in tasks && !tasks[t].Prepared? && !tasks[t].Cancelled?|,
      |set t | t in tasks && tasks[t].Succeeded?|,
      |set t | t in tasks && (tasks[t].Failed? || tasks[t].BlockedTask? || tasks[t].BudgetStopped?)|)
  }

  /** Revisions 1, 2, ... of one campaign, planned at most once and then first. */
  predicate EventFits(e: CampaignEvent, campaignId: Id, index: nat) {
    && ValidEvent(e)
    && e.campaignId == campaignId && e.revision == index + 1
    && (e.kind.CampaignPlanned? ==> index == 0)
  }

  ghost predicate Accepted(ordered: seq<CampaignEvent>) {
    forall i :: 0 <= i < |ordered| ==> EventFits(ordered[i], ordered[0].campaignId, i)
  }

  function ProjectionOf(ordered: seq<CampaignEvent>): Projection
    requires ordered != []
  {
    Projection(ordered[0].campaignId, |ordered|, StatusOf(ordered), Tasks(ordered), ProgressOf(Tasks(ordered)))
  }

  predicate RevisionOrder(a: CampaignEvent, b: CampaignEvent) {
    a.revision <= b.revision
  }

  /** The loop over the ordered events. */
  method Replay(ordered: seq<CampaignEvent>) returns (r: Result<Projection, ProjectionError>)
    requires ordered != []
    ensures r.Ok? <==> Accepted(ordered)
    ensures r.Ok? ==> r.value == ProjectionOf(ordered)
  {
    var campaignId := ordered[0].campaignId;
    var tasks: map<Id, TaskStatus> := map[];
    var status := Planned;
    var index := 0;
    while index < |ordered|
      invariant 0 <= index <= |ordered|
      invariant forall i :: 0 <= i < index ==> EventFits(ordered[i], campaignId, i)
      invariant tasks == Tasks(ordered[..index]) && status == StatusOf(ordered[..index])
    {
      var event := ordered[index];
      if !ValidEvent(event) {
        return Err(InvalidEvent);
      }
      if event.campaignId != campaignId || event.revision != index + 1 {
        return Err(NotContiguous);
      }
      if event.kind.CampaignPlanned? && index != 0 {
        return Err(PlannedTwice);
      }
      if IsTaskEvent(event.kind) {
        tasks := tasks[event.taskId.value := StatusOfTask(event.kind)];
      }
      status := StatusAfter(event.kind, status);
      assert ordered[..index + 1][..index] == ordered[..index];
      index := index + 1;
    }
    assert ordered[..index] == ordered;
    return Ok(Projection(campaignId, |ordered|, status, tasks, ProgressOf(tasks)));
  }

  /** Rebuilds the run state; rejects a journal with a gap, a repeat, a foreign event or a second plan. */
  method ProjectCampaignEvents(events: seq<CampaignEvent>) returns (r: Result<Option<Projection>, ProjectionError>)
    ensures events == [] ==> r == Ok(None)
    ensures events != [] ==>
      var ordered := SortBy(events, RevisionOrder);
      if Accepted(ordered) then r == Ok(Some(ProjectionOf(ordered))) else r.Err?
  {
    if events == [] {
      return Ok(None);
    }
    var replayed := Replay(SortBy(events, RevisionOrder));
    match replayed
    case Ok(projection) => return Ok(Some(projection));
    case Err(error) => return Err(error);
  }

  /** Whatever order the store returns the events in, the projection sees the journal. */
  lemma ProjectionIgnoresStoredOrder(journal: seq<CampaignEvent>, events: seq<CampaignEvent>)
    requires Accepted(journal) && multiset(events) == multiset(journal)
    ensures SortBy(events, RevisionOrder) == journal
  {
    hide SortBy;
    assert Sorted(journal, RevisionOrder);
    var r := SortBy(events, RevisionOrder);
    SortBySorted(events, RevisionOrder);
    SameElements(r, journal);
    forall a, b | a in r && b in r && RevisionOrder(a, b) && RevisionOrder(b, a)
      ensures a == b
    {
      var i :| 0 <= i < |journal| && journal[i] == a;
      var j :| 0 <= j < |journal| && journal[j] == b;
      assert EventFits(journal[i], journal[0].campaignId, i) && EventFits(journal[j], journal[0].campaignId, j);
    }
    SortedUnique(r, journal, RevisionOrder);
  }

  /** The events of one task, in journal order. */
  function HistoryOf(events: seq<CampaignEvent>, task: Id): seq<EventKind> {
    if events == [] then []
    else
      var e := events[|events| - 1];
      var before := HistoryOf(events[..|events| - 1], task);
      if IsTaskEvent(e.kind) && e.taskId == Some(task) then before + [e.kind] else before
  }

  lemma {:induction false} HistoryDecidesTask(events: seq<CampaignEvent>, task: Id)
    ensures forall k :: k in HistoryOf(events, task) ==> IsTaskEvent(k)
    ensures task in Tasks(events) <==> HistoryOf(events, task) != []
    ensures var h := HistoryOf(events, task);
      h != [] ==> Tasks(events)[task] == StatusOfTask(h[|h| - 1])
  {
    if events != [] {
      HistoryDecidesTask(events[..|events| - 1], task);
    }
  }

  /** The last own event, and only that, is what a task shows. */
  lemma TaskShowsLast(events: seq<CampaignEvent>, task: Id)
    requires task in Tasks(events)
    ensures var h, status := HistoryOf(events, task), Tasks(events)[task];
      && h != []
      && var last := h[|h| - 1];
         && (status.Prepared? <==> last.TaskPrepared?) && (status.InProgress? <==> last.TaskStarted?)
         && (status.Succeeded? <==> last.TaskSucceeded?) && (status.Failed? <==> last.TaskFailed?)
         && (status.BlockedTask? <==> last.TaskBlocked?) && (status.BudgetStopped? <==> last.TaskBudgetStopped?)
         && (status.Cancelled? <==> last.TaskCancelled?)
  {
    hide HistoryOf, Tasks;
    HistoryDecidesTask(events, task);
    var h := HistoryOf(events, task);
    assert h[|h| - 1] in h;
  }

  /** Two journals that interleave the same per-task events project the same task map and the same progress. */
  lemma InterleavingIrrelevant(one: seq<CampaignEvent>, other: seq<CampaignEvent>)
    requires forall task :: HistoryOf(one, task) == HistoryOf(other, task)
    ensures Tasks(one) == Tasks(other)
    ensures ProgressOf(Tasks(one)) == ProgressOf(Tasks(other))
  {
    hide HistoryOf, Tasks;
    forall task
      ensures task in Tasks(one) <==> task in Tasks(other)
      ensures task in Tasks(one) ==> Tasks(one)[task] == Tasks(other)[task]
    {
      HistoryDecidesTask(one, task);
      HistoryDecidesTask(other, task);
    }
    assert Tasks(one).Keys == Tasks(other).Keys;
  }

  ghost predicate LastIs(events: seq<CampaignEvent>, task: Id, kinds: set<EventKind>) {
    var h := HistoryOf(events, task);
    h != [] && h[|h| - 1] in kinds
  }

  /** Progress counts tasks by their last event: attempted is what started or ended otherwise than by cancellation,
      failed is what failed, was blocked, or stopped for the budget. */
  lemma ProgressCounts(events: seq<CampaignEvent>, attempted: set<Id>, succeeded: set<Id>, failed: set<Id>)
    requires forall t :: t in attempted <==>
      LastIs(events, t, {TaskStarted, TaskSucceeded, TaskFailed, TaskBlocked, TaskBudgetStopped})
    requires forall t :: t in succeeded <==> LastIs(events, t, {TaskSucceeded})
    requires forall t :: t in failed <==> LastIs(events, t, {TaskFailed, TaskBlocked, TaskBudgetStopped})
    ensures ProgressOf(Tasks(events)) == Progress(|attempted|, |succeeded|, |failed|)
  {
    hide HistoryOf, Tasks;
    var tasks := Tasks(events);
    forall t: Id
      ensures t in attempted <==> t in tasks && !tasks[t].Prepared? && !tasks[t].Cancelled?
      ensures t in succeeded <==> t in tasks && tasks[t].Succeeded?
      ensures t in failed <==> t in tasks && (tasks[t].Failed? || tasks[t].BlockedTask? || tasks[t].BudgetStopped?)
    {
      HistoryDecidesTask(events, t);
    }
    assert attempted == set t | t in tasks && !tasks[t].Prepared? && !tasks[t].Cancelled?;
    assert succeeded == set t | t in tasks && tasks[t].Succeeded?;
    assert failed == set t | t in tasks && (tasks[t].Failed? || tasks[t].BlockedTask? || tasks[t].BudgetStopped?);
  }

  // The campaign status.

  /** The last event that moves the campaign status. */
  function LastMover(events: seq<CampaignEvent>): Option<EventKind> {
    if events == [] then None
    else if !events[|events| - 1].kind.TaskCancelled? then Some(events[|events| - 1].kind)
    else LastMover(events[..|events| - 1])
  }

  function StatusLeft(mover: Option<EventKind>): CampaignStatus {
    if mover.None? then Planned else StatusAfter(mover.value, Planned)
  }

  /** Everything but that event is forgotten. */
  lemma {:induction false} LastMoverDecidesStatus(events: seq<CampaignEvent>)
    ensures StatusOf(events) == StatusLeft(LastMover(events))
  {
    if events != [] {
      LastMoverDecidesStatus(events[..|events| - 1]);
    }
  }

  /** And this is the status it leaves: a task at work or done leaves the campaign running, a blocked or stopped one
      leaves it blocked, and the campaign's own events say what they leave. */
  lemma StatusShowsLastMover(events: seq<CampaignEvent>)
    ensures var status, mover := StatusOf(events), LastMover(events);
      && (status.Planned? <==> mover in {None, Some(CampaignPlanned)})
      && (status.Authorized? <==> mover == Some(CampaignAuthorized))
      && (status.Running? <==>
           mover in {Some(TaskPrepared), Some(TaskStarted), Some(TaskSucceeded), Some(TaskFailed)})
      && (status.Blocked? <==> mover in {Some(TaskBlocked), Some(TaskBudgetStopped), Some(CampaignBlocked)})
      && (status.AwaitingApplication? <==> mover == Some(CampaignAwaitingApplication))
      && (status.Completed? <==> mover == Some(CampaignCompleted))
  {
    hide StatusOf, LastMover;
    LastMoverDecidesStatus(events);
    MoverIsNoCancellation(events);
  }

  lemma {:induction false} MoverIsNoCancellation(events: seq<CampaignEvent>)
    ensures LastMover(events) != Some(TaskCancelled)
  {
    if events != [] {
      MoverIsNoCancellation(events[..|events| - 1]);
    }
  }

  /** So two journals with the same per-task events show the same exactly when those events leave the same status; when
      both end with one campaign event, they always do. */
  lemma StatusAgreesExactly(one: seq<CampaignEvent>, other: seq<CampaignEvent>)
    requires forall task :: HistoryOf(one, task) == HistoryOf(other, task)
    ensures (Shown(one) == Shown(other)) <==> StatusLeft(LastMover(one)) == StatusLeft(LastMover(other))
    ensures ClosedAlike(one, other) ==> Shown(one) == Shown(other)
  {
    InterleavingIrrelevant(one, other);
    LastMoverDecidesStatus(one);
    LastMoverDecidesStatus(other);
  }

  /** The same event of the campaign itself closes both. */
  predicate ClosedAlike(one: seq<CampaignEvent>, other: seq<CampaignEvent>) {
    && one != [] && other != [] && !IsTaskEvent(one[|one| - 1].kind)
    && one[|one| - 1].kind == other[|other| - 1].kind
  }

  /** What a projection shows beyond the campaign's id and revision. */
  function Shown(events: seq<CampaignEvent>): (CampaignStatus, map<Id, TaskStatus>, Progress) {
    (StatusOf(events), Tasks(events), ProgressOf(Tasks(events)))
  }

  lemma {:induction false} HistoryOfExtended(events: seq<CampaignEvent>, e: CampaignEvent, task: Id)
    ensures HistoryOf(events + [e], task) ==
      HistoryOf(events, task) + if IsTaskEvent(e.kind) && e.taskId == Some(task) then [e.kind] else []
  {
    assert (events + [e])[..|events|] == events;
  }

}
