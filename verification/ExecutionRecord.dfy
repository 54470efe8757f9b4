/** An execution's history: its attempts, its bounded event log, and the transitions between its states. */
module ExecutionRecord {
  import opened Wrappers

  const MAX_EXECUTION_ATTEMPTS := 2
  const MAX_EXECUTION_EVENTS := 100
  const MAX_PROOF_REFERENCES := 50

  datatype Status = Planned | Running | AwaitingApproval | Succeeded | Failed | Cancelled | Interrupted | Rejected

  datatype AttemptStatus = AttemptRunning | AttemptSucceeded | AttemptFailed | AttemptCancelled | AttemptInterrupted
    | AttemptRejected

  datatype Attempt = Attempt(number: nat, status: AttemptStatus, startedAt: int, endedAt: Option<int>,
        session: Option<string>)

  datatype Event = Event(at: int, kind: string, detail: string)

  datatype SuspensionCode =
    | PermissionNotPreapproved | PermissionRequested | AutomaticDisabled | ScopeChanged | PreconditionChanged
    | ProofMissing | DecisionRequired | ProviderError | WorkerUnavailable | CancelledByUser | InterruptedWork
    | PolicyRejected

  datatype Reason = Reason(code: SuspensionCode, detail: string)

  /** A legacy target has no model. */
  datatype Target = Target(provider: string, adapter: string, model: Option<string>, legacy: bool)

  datatype Order = Order(id: string, projectId: string, content: string)

  datatype Record = Record(
    id: string, order: Order, target: Target, status: Status, attempts: seq<Attempt>, events: seq<Event>,
    truncated: nat, proofs: seq<string>, reason: Option<Reason>, session: Option<string>, createdAt: int,
      updatedAt: int)

  datatype RecordError = InvalidState | InvalidTime | InvalidText | TooManyAttempts | NoRunningAttempt | MissingProof
    | LegacyTarget | InvalidRecord

  predicate SafeText(text: string, maximum: nat) {
    0 < |text| <= maximum
  }

  predicate ValidEvent(e: Event) {
    SafeText(e.kind, 64) && SafeText(e.detail, 500)
  }

  predicate ValidReason(reason: Reason) {
    SafeText(reason.detail, 500)
  }

  predicate ValidSession(session: Option<string>) {
    session.Some? ==> SafeText(session.value, 256)
  }

  predicate ValidProofs(proofs: seq<string>) {
    && |proofs| <= MAX_PROOF_REFERENCES
    && (forall i, j :: 0 <= i < j < |proofs| ==> proofs[i] != proofs[j])
    && (forall i :: 0 <= i < |proofs| ==> SafeText(proofs[i], 512))
  }

  predicate ValidAttempt(a: Attempt) {
    && (a.endedAt.Some? ==> a.startedAt <= a.endedAt.value)
    && (a.status.AttemptRunning? <==> a.endedAt.None?)
    && ValidSession(a.session)
  }

  predicate ValidAttempts(attempts: seq<Attempt>) {
    && |attempts| <= MAX_EXECUTION_ATTEMPTS
    && (forall i :: 0 <= i < |attempts| ==> ValidAttempt(attempts[i]) && attempts[i].number == i + 1)
    && (forall i, j :: 0 <= i < j < |attempts| ==> attempts[i].startedAt <= attempts[j].startedAt)
  }

  predicate ValidEvents(events: seq<Event>) {
    && |events| <= MAX_EXECUTION_EVENTS
    && (forall i :: 0 <= i < |events| ==> ValidEvent(events[i]))
    && (forall i, j :: 0 <= i < j < |events| ==> events[i].at <= events[j].at)
  }

  /** The loop over the attempts. */
  method ValidateAttempts(attempts: seq<Attempt>) returns (ok: bool)
    ensures ok <==> ValidAttempts(attempts)
  {
    if |attempts| > MAX_EXECUTION_ATTEMPTS {
      return false;
    }
    var previous: Option<int> := None;
    var i := 0;
    while i < |attempts|
      invariant 0 <= i <= |attempts|
      invariant previous == if i == 0 then None else Some(attempts[i - 1].startedAt)
      invariant ValidAttempts(attempts[..i])
    {
      var attempt := attempts[i];
      if attempt.number != i + 1 || (previous.Some? && attempt.startedAt < previous.value) || !ValidAttempt(attempt) {
        return false;
      }
      previous := Some(attempt.startedAt);
      assert forall j :: 0 <= j < i ==> attempts[..i][j] == attempts[j];
      i := i + 1;
    }
    assert attempts[..i] == attempts;
    return true;
  }

  method ValidateEvents(events: seq<Event>) returns (ok: bool)
    ensures ok <==> ValidEvents(events)
  {
    if |events| > MAX_EXECUTION_EVENTS {
      return false;
    }
    var previous: Option<int> := None;
    var i := 0;
    while i < |events|
      invariant 0 <= i <= |events|
      invariant previous == if i == 0 then None else Some(events[i - 1].at)
      invariant ValidEvents(events[..i])
    {
      if !ValidEvent(events[i]) || (previous.Some? && events[i].at < previous.value) {
        return false;
      }
      previous := Some(events[i].at);
      assert forall j :: 0 <= j < i ==> events[..i][j] == events[j];
      i := i + 1;
    }
    assert events[..i] == events;
    return true;
  }

  function LastStatus(attempts: seq<Attempt>): Option<AttemptStatus> {
    if attempts == [] then None else Some(attempts[|attempts| - 1].status)
  }

  predicate Closed(s: Status) {
    s.Failed? || s.Cancelled? || s.Interrupted? || s.Rejected?
  }

  predicate StateConsistent(r: Record) {
    && (r.status.Succeeded? ==> r.proofs != [] && LastStatus(r.attempts) == Some(AttemptSucceeded))
    && (r.status.Running? ==> LastStatus(r.attempts) == Some(AttemptRunning))
    && (r.status.AwaitingApproval? ==> r.reason.Some? && LastStatus(r.attempts) == Some(AttemptRunning))
    && (Closed(r.status) ==> r.reason.Some?)
  }

  predicate ValidRecord(r: Record) {
    && ValidAttempts(r.attempts) && ValidEvents(r.events) && ValidProofs(r.proofs)
    && (r.reason.Some? ==> ValidReason(r.reason.value))
    && ValidSession(r.session)
    && r.createdAt <= r.updatedAt
    && StateConsistent(r)
  }

  /** Every new record goes through validation. */
  function Create(r: Record): Result<Record, RecordError> {
    if ValidRecord(r) then Ok(r) else Err(InvalidRecord)
  }

  function Selected(target: Target): string {
    if target.legacy then "Legacy execution target retained without a model."
      else "Provider and model selected by the user."
  }

  function Plan(id: string, order: Order, target: Target, at: int): Record {
    Record(id, order, target, Planned, [],
      [Event(at, "target_selected", Selected(target)),
        Event(at, "planned", "Mission order accepted by the control plane.")],
      0, [], None, None, at, at)
  }

  // Transitions.

  /** The newest events stay; the oldest one makes room. */
  function AppendBounded(events: seq<Event>, e: Event, truncated: nat): (seq<Event>, nat) {
    var next := events + [e];
    if |next| <= MAX_EXECUTION_EVENTS then (next, truncated) else (next[1..], truncated + 1)
  }

  function Carried(status: Status, given: Option<Reason>, current: Option<Reason>): Option<Reason> {
    if status.Planned? || status.Succeeded? then None else if given.Some? then given else current
  }

  function Transition(r: Record, status: Status, attempts: seq<Attempt>, proofs: seq<string>, reason: Option<Reason>,
        session: Option<string>, e: Event): Result<Record, RecordError> {
    if e.at < r.updatedAt then Err(InvalidTime)
    else if !ValidEvent(e) then Err(InvalidText)
    else
      var (events, truncated) := AppendBounded(r.events, e, r.truncated);
      Create(r.(status := status, attempts := attempts, events := events, truncated := truncated, proofs := proofs,
        reason := Carried(status, reason, r.reason), updatedAt := e.at,
        session := if session.Some? then session else r.session))
  }

  function FinishLatest(attempts: seq<Attempt>, status: AttemptStatus, at: int): Result<seq<Attempt>, RecordError> {
    if LastStatus(attempts) != Some(AttemptRunning) then Err(NoRunningAttempt)
    else
      var n := |attempts| - 1;
      Ok(attempts[..n] + [attempts[n].(status := status, endedAt := Some(at))])
  }

  datatype Command =
    | Begin(at: int, session: Option<string>)
    | AwaitApproval(reason: Reason, at: int)
    | Approve(at: int)
    | Succeed(proofs: seq<string>, at: int)
    | RecordSession(id: string, at: int)
    | Fail(reason: Reason, at: int)
    | Cancel(reason: Reason, at: int)
    | Interrupt(reason: Reason, at: int)
    | Reject(reason: Reason, at: int)
    | Retry(at: int)
    | AppendEvent(kind: string, detail: string, at: int)

  function KindOf(c: Command): (kind: string)
    ensures !c.AppendEvent? ==> SafeText(kind, 64)
  {
    match c
    case Begin(_, _) => "started"
    case AwaitApproval(_, _) => "approval_requested"
    case Approve(_) => "approved"
    case Succeed(_, _) => "succeeded"
    case RecordSession(_, _) => "provider_session_recorded"
    case Fail(_, _) => "failed"
    case Cancel(_, _) => "cancelled"
    case Interrupt(_, _) => "interrupted"
    case Reject(_, _) => "rejected"
    case Retry(_) => "retry_planned"
    case AppendEvent(kind, _, _) => kind
  }

  predicate ReasonGiven(c: Command) {
    c.AwaitApproval? || c.Fail? || c.Cancel? || c.Interrupt? || c.Reject?
  }

  function DetailOf(c: Command): (detail: string)
    ensures !ReasonGiven(c) && !c.AppendEvent? ==> SafeText(detail, 500)
  {
    match c
    case Begin(_, _) => "Worker dispatch started."
    case AwaitApproval(reason, _) => reason.detail
    case Approve(_) => "Required approval granted; mission can be dispatched again."
    case Succeed(_, _) => "Worker returned verifiable proof references."
    case RecordSession(_, _) => "External provider session reference recorded."
    case Fail(reason, _) => reason.detail
    case Cancel(reason, _) => reason.detail
    case Interrupt(reason, _) => reason.detail
    case Reject(reason, _) => reason.detail
    case Retry(_) => "Retry planned with the original provider, adapter and model."
    case AppendEvent(_, detail, _) => detail
  }

  function EventOf(c: Command): Event {
    Event(c.at, KindOf(c), DetailOf(c))
  }

  function Finishing(r: Record, c: Command, status: Status, ending: AttemptStatus, proofs: seq<string>,
        reason: Option<Reason>): Result<Record, RecordError> {
    match FinishLatest(r.attempts, ending, c.at)
    case Err(e) => Err(e)
    case Ok(attempts) => Transition(r, status, attempts, proofs, reason, None, EventOf(c))
  }

  /** The session is on record already. */
  predicate SameSession(r: Record, id: string) {
    r.attempts != [] && r.attempts[|r.attempts| - 1].session == Some(id) && r.session == Some(id)
  }

  function RecordedSession(r: Record, c: Command): Result<Record, RecordError>
    requires c.RecordSession?
  {
    if !(r.status.Running? || r.status.AwaitingApproval?) then Err(InvalidState)
    else if !SafeText(c.id, 256) then Err(InvalidText)
    else if LastStatus(r.attempts) != Some(AttemptRunning) then Err(NoRunningAttempt)
    else if SameSession(r, c.id) then Ok(r)
    else
      var n := |r.attempts| - 1;
      Transition(r, r.status, r.attempts[..n] + [r.attempts[n].(session := Some(c.id))], r.proofs, None, Some(c.id),
        EventOf(c))
  }

  function Began(r: Record, c: Command): Result<Record, RecordError>
    requires c.Begin?
  {
    if !r.status.Planned? then Err(InvalidState)
    else if |r.attempts| >= MAX_EXECUTION_ATTEMPTS then Err(TooManyAttempts)
    else
      Transition(r, Running, r.attempts + [Attempt(|r.attempts| + 1, AttemptRunning, c.at, None, c.session)], r.proofs,
        None, c.session, EventOf(c))
  }

  function Retried(r: Record, c: Command): Result<Record, RecordError> {
    if r.target.legacy then Err(LegacyTarget)
    else if !(r.status.Failed? || r.status.Cancelled? || r.status.Interrupted?) then Err(InvalidState)
    else if |r.attempts| >= MAX_EXECUTION_ATTEMPTS then Err(TooManyAttempts)
    else Transition(r, Planned, r.attempts, r.proofs, None, None, EventOf(c))
  }

  function Apply(r: Record, c: Command): Result<Record, RecordError> {
    match c
    case Begin(_, _) => Began(r, c)
    case AwaitApproval(reason, _) =>
      if !r.status.Running? then Err(InvalidState)
      else Transition(r, AwaitingApproval, r.attempts, r.proofs, Some(reason), None, EventOf(c))
    case Approve(_) =>
      if !r.status.AwaitingApproval? then Err(InvalidState)
      else Finishing(r, c, Planned, AttemptInterrupted, r.proofs, None)
    case Succeed(proofs, _) =>
      if !r.status.Running? then Err(InvalidState)
      else if !ValidProofs(r.proofs + proofs) then Err(InvalidText)
      else if r.proofs + proofs == [] then Err(MissingProof)
      else Finishing(r, c, Succeeded, AttemptSucceeded, r.proofs + proofs, None)
    case RecordSession(_, _) => RecordedSession(r, c)
    case Fail(reason, _) =>
      if !r.status.Running? then Err(InvalidState)
      else Finishing(r, c, Failed, AttemptFailed, r.proofs, Some(reason))
    case Cancel(reason, _) =>
      if r.status.Running? || r.status.AwaitingApproval? then Finishing(r, c, Cancelled, AttemptCancelled, r.proofs,
        Some(reason))
      else if r.status.Planned? then Transition(r, Cancelled, r.attempts, r.proofs, Some(reason), None, EventOf(c))
      else Err(InvalidState)
    case Interrupt(reason, _) =>
      if r.status.Running? || r.status.AwaitingApproval? then Finishing(r, c, Interrupted, AttemptInterrupted, r.proofs,
        Some(reason))
      else Err(InvalidState)
    case Reject(reason, _) =>
      if !r.status.Planned? then Err(InvalidState)
      else Transition(r, Rejected, r.attempts, r.proofs, Some(reason), None, EventOf(c))
    case Retry(_) => Retried(r, c)
    case AppendEvent(kind, detail, at) =>
      if !ValidEvent(EventOf(c)) then Err(InvalidText)
      else Transition(r, r.status, r.attempts, r.proofs, None, None, EventOf(c))
  }

  // What every reachable record satisfies.

  predicate Active(s: Status) {
    s.Running? || s.AwaitingApproval?
  }

  /** Only the last attempt can be running, and it is running exactly while the execution is. */
  predicate RunningOk(r: Record) {
    forall i :: 0 <= i < |r.attempts| ==>
      (r.attempts[i].status.AttemptRunning? <==> i == |r.attempts| - 1 && Active(r.status))
  }

  /** The newest event carries the update time, and no attempt reaches beyond it. */
  predicate TimesOk(r: Record) {
    && r.events != [] && r.events[|r.events| - 1].at == r.updatedAt
    && forall i :: 0 <= i < |r.attempts| ==>
         r.attempts[i].startedAt <= r.updatedAt &&
           (r.attempts[i].endedAt.Some? ==> r.attempts[i].endedAt.value <= r.updatedAt)
  }

  predicate RecordOk(r: Record) {
    && ValidRecord(r) && RunningOk(r) && TimesOk(r)
    && (Active(r.status) ==> r.attempts != [])
    && (r.truncated > 0 ==> |r.events| == MAX_EXECUTION_EVENTS)
  }

  /** The guard, by the record's own validators. */
  predicate Guard(r: Record, c: Command) {
    && (NoOp(r, c) || r.updatedAt <= c.at)
    && match c
       case Begin(_, session) => r.status.Planned? && |r.attempts| < MAX_EXECUTION_ATTEMPTS && ValidSession(session)
       case AwaitApproval(reason, _) => r.status.Running? && ValidReason(reason)
       case Approve(_) => r.status.AwaitingApproval?
       case Succeed(proofs, _) => r.status.Running? && r.proofs + proofs != [] && ValidProofs(r.proofs + proofs)
       case RecordSession(id, _) => Active(r.status) && SafeText(id, 256)
       case Fail(reason, _) => r.status.Running? && ValidReason(reason)
       case Cancel(reason, _) => (r.status.Planned? || Active(r.status)) && ValidReason(reason)
       case Interrupt(reason, _) => Active(r.status) && ValidReason(reason)
       case Reject(reason, _) => r.status.Planned? && ValidReason(reason)
       case Retry(_) =>
         !r.target.legacy && (r.status.Failed? || r.status.Cancelled? || r.status.Interrupted?) &&
           |r.attempts| < MAX_EXECUTION_ATTEMPTS
       case AppendEvent(kind, detail, _) => SafeText(kind, 64) && SafeText(detail, 500)
  }

  /** What a caller can check before the call. */
  predicate MayCall(r: Record, c: Command) {
    && (NoOp(r, c) || r.updatedAt <= c.at)
    && match c
       case Begin(_, session) =>
         && r.status.Planned? && |r.attempts| < 2
         && (session.Some? ==> 1 <= |session.value| <= 256)
       case AwaitApproval(reason, _) => r.status.Running? && 1 <= |reason.detail| <= 500
       case Approve(_) => r.status.AwaitingApproval?
       case Succeed(proofs, _) =>
         var all := r.proofs + proofs;
         && r.status.Running? && 1 <= |all| <= 50
         && (forall i :: 0 <= i < |all| ==> 1 <= |all[i]| <= 512)
         && (forall i, j :: 0 <= i < j < |all| ==> all[i] != all[j])
       case RecordSession(id, _) => (r.status.Running? || r.status.AwaitingApproval?) && 1 <= |id| <= 256
       case Fail(reason, _) => r.status.Running? && 1 <= |reason.detail| <= 500
       case Cancel(reason, _) =>
           (r.status.Planned? || r.status.Running? || r.status.AwaitingApproval?) && 1 <= |reason.detail| <= 500
       case Interrupt(reason, _) => (r.status.Running? || r.status.AwaitingApproval?) && 1 <= |reason.detail| <= 500
       case Reject(reason, _) => r.status.Planned? && 1 <= |reason.detail| <= 500
       case Retry(_) =>
         !r.target.legacy && (r.status.Failed? || r.status.Cancelled? || r.status.Interrupted?) &&
           |r.attempts| < 2
       case AppendEvent(kind, detail, _) => 1 <= |kind| <= 64 && 1 <= |detail| <= 500
  }

  /** A call that changes nothing. */
  predicate NoOp(r: Record, c: Command) {
    c.RecordSession? && SameSession(r, c.id)
  }

  /** Attempts that fit a record in the given state, updated at the given time. */
  predicate AttemptsFit(status: Status, attempts: seq<Attempt>, proofs: seq<string>, at: int) {
    && ValidAttempts(attempts)
    && (forall i :: 0 <= i < |attempts| ==>
         && attempts[i].startedAt <= at && (attempts[i].endedAt.Some? ==> attempts[i].endedAt.value <= at)
         && (attempts[i].status.AttemptRunning? <==> i == |attempts| - 1 && Active(status)))
    && (Active(status) ==> attempts != [])
    && (status.Succeeded? ==> proofs != [] && LastStatus(attempts) == Some(AttemptSucceeded))
  }

  lemma BoundedEvents(r: Record, e: Event)
    requires ValidEvents(r.events) && TimesOk(r) && ValidEvent(e) && r.updatedAt <= e.at
    requires r.truncated > 0 ==> |r.events| == MAX_EXECUTION_EVENTS
    ensures var (events, truncated) := AppendBounded(r.events, e, r.truncated);
      && ValidEvents(events) && events != [] && events[|events| - 1] == e
      && |events| + truncated == |r.events| + r.truncated + 1
      && (truncated > 0 ==> |events| == MAX_EXECUTION_EVENTS)
  {
    var next := r.events + [e];
    forall i, j | 0 <= i < j < |next|
      ensures next[i].at <= next[j].at
    {
      if j == |next| - 1 {
        assert i < |r.events| - 1 ==> r.events[i].at <= r.events[|r.events| - 1].at;
      }
    }
  }

  ghost predicate Extends(r: Record, c: Command, q: Record) {
    && q.id == r.id && q.order == r.order && q.target == r.target && q.createdAt == r.createdAt
    && |r.attempts| <= |q.attempts| && r.proofs <= q.proofs
    && if NoOp(r, c) then q == r
       else q.updatedAt == c.at && (q.events, q.truncated) == AppendBounded(r.events, EventOf(c), r.truncated)
  }

  /** A transition into a fitting state passes validation. */
  lemma TransitionWorks(r: Record, status: Status, attempts: seq<Attempt>, proofs: seq<string>, reason: Option<Reason>,
        session: Option<string>, e: Event)
    requires RecordOk(r) && r.updatedAt <= e.at && ValidEvent(e)
    requires AttemptsFit(status, attempts, proofs, e.at) && ValidProofs(proofs)
    requires (reason.Some? ==> ValidReason(reason.value)) && ValidSession(session)
    requires (status.AwaitingApproval? || Closed(status)) ==> Carried(status, reason, r.reason).Some?
    ensures var q := Transition(r, status, attempts, proofs, reason, session, e);
      && q.Ok? && RecordOk(q.value)
      && q.value.id == r.id && q.value.order == r.order && q.value.target == r.target &&
        q.value.createdAt == r.createdAt
      && q.value.attempts == attempts && q.value.proofs == proofs && q.value.updatedAt == e.at
      && (q.value.events, q.value.truncated) == AppendBounded(r.events, e, r.truncated)
  {
    hide ValidEvents, ValidEvent, ValidProofs, ValidReason, ValidSession, ValidAttempts, AppendBounded;
    BoundedEvents(r, e);
  }

  /** The attempts of a record fit a later time in the same state, and in any state that agrees on being active. */
  lemma SameAttemptsFit(r: Record, status: Status, at: int)
    requires RecordOk(r) && r.updatedAt <= at && Active(status) == Active(r.status)
    requires (status.Succeeded? ==> r.status.Succeeded?)
    ensures AttemptsFit(status, r.attempts, r.proofs, at)
  {
    hide ValidAttempts, ValidEvents, ValidProofs;
  }

  lemma BegunAttemptsFit(r: Record, at: int, session: Option<string>)
    requires RecordOk(r) && r.updatedAt <= at && r.status.Planned? && |r.attempts| < MAX_EXECUTION_ATTEMPTS
    requires ValidSession(session)
    ensures AttemptsFit(Running, r.attempts + [Attempt(|r.attempts| + 1, AttemptRunning, at, None, session)], r.proofs,
      at)
  {
    hide ValidEvents, ValidProofs, ValidSession;
  }

  lemma FinishedAttemptsFit(r: Record, status: Status, ending: AttemptStatus, proofs: seq<string>, at: int)
    requires RecordOk(r) && r.updatedAt <= at && Active(r.status) && !Active(status) && !ending.AttemptRunning?
    requires status.Succeeded? ==> proofs != [] && ending.AttemptSucceeded?
    ensures var f := FinishLatest(r.attempts, ending, at);
      f.Ok? && AttemptsFit(status, f.value, proofs, at) && |f.value| == |r.attempts|
  {
    hide ValidEvents, ValidProofs, ValidSession;
  }

  lemma SessionAttemptsFit(r: Record, id: string, at: int)
    requires RecordOk(r) && r.updatedAt <= at && Active(r.status) && SafeText(id, 256)
    ensures var n := |r.attempts| - 1;
      n >= 0 && AttemptsFit(r.status, r.attempts[..n] + [r.attempts[n].(session := Some(id))], r.proofs, at)
  {
    hide ValidEvents, ValidProofs;
  }

  lemma EventIsValid(r: Record, c: Command)
    requires Guard(r, c)
    ensures ValidEvent(EventOf(c))
  {
    hide KindOf, DetailOf, SafeText;
    TextOf(c);
  }

  lemma TextOf(c: Command)
    ensures ReasonGiven(c) ==> DetailOf(c) == c.reason.detail
    ensures c.AppendEvent? ==> KindOf(c) == c.kind && DetailOf(c) == c.detail
  {
    hide SafeText;
  }

  lemma FinishingWorks(r: Record, c: Command, status: Status, ending: AttemptStatus, proofs: seq<string>,
        reason: Option<Reason>)
    requires RecordOk(r) && Guard(r, c) && !c.RecordSession? && Active(r.status) && !Active(status)
    requires !ending.AttemptRunning?
    requires (status.Succeeded? ==> proofs != [] && ending.AttemptSucceeded?) && ValidProofs(proofs)
    requires r.proofs <= proofs
    requires (reason.Some? ==> ValidReason(reason.value)) && (Closed(status) ==> reason.Some?)
    ensures var q := Finishing(r, c, status, ending, proofs, reason);
      q.Ok? && RecordOk(q.value) && Extends(r, c, q.value)
  {
    hide RecordOk, FinishLatest, ValidProofs, Transition, EventOf, Guard, AttemptsFit, ValidReason, AppendBounded;
    EventIsValid(r, c);
    EventTime(c);
    GuardTime(r, c);
    FinishedAttemptsFit(r, status, ending, proofs, c.at);
    TransitionWorks(r, status, FinishLatest(r.attempts, ending, c.at).value, proofs, reason, None, EventOf(c));
  }

  lemma EventTime(c: Command)
    ensures EventOf(c).at == c.at
  {
    hide KindOf, DetailOf;
  }

  lemma GuardTime(r: Record, c: Command)
    requires Guard(r, c)
    ensures NoOp(r, c) || r.updatedAt <= c.at
  {
  }

  /** Whoever meets the guard succeeds, and stays within what every reachable record satisfies. */
  lemma GuardSuffices(r: Record, c: Command)
    requires RecordOk(r) && Guard(r, c)
    ensures var q := Apply(r, c); q.Ok? && RecordOk(q.value) && Extends(r, c, q.value)
  {
    hide RecordOk, FinishLatest, ValidProofs, Transition, Finishing, AttemptsFit, ValidReason, ValidSession, SafeText,
      ValidEvent, EventOf, AppendBounded;
    EventIsValid(r, c);
    EventTime(c);
    CurrentParts(r);
    match c
    case Begin(at, session) =>
      BegunAttemptsFit(r, at, session);
      TransitionWorks(r, Running, r.attempts + [Attempt(|r.attempts| + 1, AttemptRunning, at, None, session)],
        r.proofs, None, session, EventOf(c));
    case AwaitApproval(reason, at) =>
      SameAttemptsFit(r, AwaitingApproval, at);
      TransitionWorks(r, AwaitingApproval, r.attempts, r.proofs, Some(reason), None, EventOf(c));
    case Approve(_) =>
      FinishingWorks(r, c, Planned, AttemptInterrupted, r.proofs, None);
    case Succeed(proofs, _) =>
      FinishingWorks(r, c, Succeeded, AttemptSucceeded, r.proofs + proofs, None);
    case RecordSession(id, at) =>
      SessionWorks(r, c);
    case Fail(reason, _) =>
      FinishingWorks(r, c, Failed, AttemptFailed, r.proofs, Some(reason));
    case Cancel(reason, at) =>
      if r.status.Planned? {
        SameAttemptsFit(r, Cancelled, at);
        TransitionWorks(r, Cancelled, r.attempts, r.proofs, Some(reason), None, EventOf(c));
      } else {
        FinishingWorks(r, c, Cancelled, AttemptCancelled, r.proofs, Some(reason));
      }
    case Interrupt(reason, _) =>
      FinishingWorks(r, c, Interrupted, AttemptInterrupted, r.proofs, Some(reason));
    case Reject(reason, at) =>
      SameAttemptsFit(r, Rejected, at);
      TransitionWorks(r, Rejected, r.attempts, r.proofs, Some(reason), None, EventOf(c));
    case Retry(at) =>
      SameAttemptsFit(r, Planned, at);
      TransitionWorks(r, Planned, r.attempts, r.proofs, None, None, EventOf(c));
    case AppendEvent(_, _, at) =>
      SameAttemptsFit(r, r.status, at);
      TransitionWorks(r, r.status, r.attempts, r.proofs, None, None, EventOf(c));
  }

  lemma CurrentParts(r: Record)
    requires RecordOk(r)
    ensures ValidProofs(r.proofs) && ValidSession(None)
    ensures (r.status.AwaitingApproval? || Closed(r.status)) ==> r.reason.Some?
    ensures Active(r.status) ==> LastStatus(r.attempts) == Some(AttemptRunning)
  {
    hide ValidProofs, ValidAttempts, ValidEvents;
  }

  lemma SessionWorks(r: Record, c: Command)
    requires RecordOk(r) && Guard(r, c) && c.RecordSession?
    ensures var q := Apply(r, c); q.Ok? && RecordOk(q.value) && Extends(r, c, q.value)
  {
    hide RecordOk, ValidProofs, Transition, AttemptsFit, ValidEvent, EventOf, AppendBounded;
    EventIsValid(r, c);
    EventTime(c);
    CurrentParts(r);
    if !SameSession(r, c.id) {
      SessionAttemptsFit(r, c.id, c.at);
      var n := |r.attempts| - 1;
      TransitionWorks(r, r.status, r.attempts[..n] + [r.attempts[n].(session := Some(c.id))], r.proofs, None,
        Some(c.id), EventOf(c));
    }
  }

  lemma TransitionNeeds(r: Record, status: Status, attempts: seq<Attempt>, proofs: seq<string>, reason: Option<Reason>,
        session: Option<string>, e: Event)
    requires Transition(r, status, attempts, proofs, reason, session, e).Ok?
    ensures r.updatedAt <= e.at && ValidEvent(e)
    ensures reason.Some? && !status.Planned? && !status.Succeeded? ==> ValidReason(reason.value)
    ensures ValidSession(session) && ValidProofs(proofs)
  {
    hide ValidAttempts, ValidEvents, ValidProofs, AppendBounded, StateConsistent;
  }

  lemma FinishingNeeds(r: Record, c: Command, status: Status, ending: AttemptStatus, proofs: seq<string>,
        reason: Option<Reason>)
    requires Finishing(r, c, status, ending, proofs, reason).Ok?
    ensures r.updatedAt <= c.at
    ensures reason.Some? && !status.Planned? && !status.Succeeded? ==> ValidReason(reason.value)
  {
    hide Transition, ValidReason, EventOf, ValidProofs;
    EventTime(c);
    TransitionNeeds(r, status, FinishLatest(r.attempts, ending, c.at).value, proofs, reason, None, EventOf(c));
  }

  lemma GuardNecessary(r: Record, c: Command)
    requires RecordOk(r) && Apply(r, c).Ok?
    ensures Guard(r, c)
  {
    hide RecordOk, Transition, Finishing, ValidReason, ValidSession, EventOf, ValidProofs, SafeText;
    EventTime(c);
    match c
    case Begin(at, session) =>
      TransitionNeeds(r, Running, r.attempts + [Attempt(|r.attempts| + 1, AttemptRunning, at, None, session)],
        r.proofs, None, session, EventOf(c));
    case AwaitApproval(reason, _) =>
      TransitionNeeds(r, AwaitingApproval, r.attempts, r.proofs, Some(reason), None, EventOf(c));
    case Approve(_) =>
      FinishingNeeds(r, c, Planned, AttemptInterrupted, r.proofs, None);
    case Succeed(proofs, _) =>
      FinishingNeeds(r, c, Succeeded, AttemptSucceeded, r.proofs + proofs, None);
    case RecordSession(id, _) =>
      if !SameSession(r, id) {
        var n := |r.attempts| - 1;
        TransitionNeeds(r, r.status, r.attempts[..n] + [r.attempts[n].(session := Some(id))], r.proofs, None, Some(id),
          EventOf(c));
      }
    case Fail(reason, _) =>
      FinishingNeeds(r, c, Failed, AttemptFailed, r.proofs, Some(reason));
    case Cancel(reason, _) =>
      if r.status.Planned? {
        TransitionNeeds(r, Cancelled, r.attempts, r.proofs, Some(reason), None, EventOf(c));
      } else {
        FinishingNeeds(r, c, Cancelled, AttemptCancelled, r.proofs, Some(reason));
      }
    case Interrupt(reason, _) =>
      FinishingNeeds(r, c, Interrupted, AttemptInterrupted, r.proofs, Some(reason));
    case Reject(reason, _) =>
      TransitionNeeds(r, Rejected, r.attempts, r.proofs, Some(reason), None, EventOf(c));
    case Retry(_) =>
      TransitionNeeds(r, Planned, r.attempts, r.proofs, None, None, EventOf(c));
    case AppendEvent(_, _, _) =>
      EventNeeds(c);
      TransitionNeeds(r, r.status, r.attempts, r.proofs, None, None, EventOf(c));
  }

  lemma EventNeeds(c: Command)
    requires c.AppendEvent?
    ensures ValidEvent(EventOf(c)) <==> SafeText(c.kind, 64) && SafeText(c.detail, 500)
  {
    hide SafeText;
    TextOf(c);
  }

  lemma GuardInFull(r: Record, c: Command)
    ensures Guard(r, c) <==> MayCall(r, c)
  {
  }

  /** On every reachable record, a call succeeds exactly when its guard holds: validating the new record never gets in
      the way. */
  lemma CallsAreGuarded(r: Record, c: Command)
    requires RecordOk(r)
    ensures Apply(r, c).Ok? <==> MayCall(r, c)
    ensures Guard(r, c) <==> MayCall(r, c)
    ensures Apply(r, c).Ok? ==> RecordOk(Apply(r, c).value) && Extends(r, c, Apply(r, c).value)
  {
    hide RecordOk, Apply, Guard, MayCall, Extends;
    GuardInFull(r, c);
    if Guard(r, c) {
      GuardSuffices(r, c);
    }
    if Apply(r, c).Ok? {
      GuardNecessary(r, c);
    }
  }

  // Runs.

  lemma SelectedText(target: Target)
    ensures SafeText(Selected(target), 500)
  {
  }

  lemma PlannedText(at: int, selected: string)
    requires SafeText(selected, 500)
    ensures ValidEvent(Event(at, "target_selected", selected))
    ensures ValidEvent(Event(at, "planned", "Mission order accepted by the control plane."))
  {
  }

  lemma PlannedOk(id: string, order: Order, target: Target, at: int)
    ensures RecordOk(Plan(id, order, target, at))
  {
    hide Selected, ValidEvent;
    SelectedText(target);
    var events := Plan(id, order, target, at).events;
    assert ValidEvent(events[0]) && ValidEvent(events[1]) by {
      PlannedText(at, Selected(target));
    }
  }

  ghost predicate IsRun(records: seq<Record>, commands: seq<Command>) {
    && |records| == |commands| + 1
    && (exists id, order, target, at :: records[0] == Plan(id, order, target, at))
    && forall i :: 0 <= i < |commands| ==> Apply(records[i], commands[i]) == Ok(records[i + 1])
  }

  /** Every event of the run, from planning on. */
  function LogOf(records: seq<Record>, commands: seq<Command>): seq<Event>
    requires |records| == |commands| + 1
  {
    if commands == [] then records[0].events
    else
      var n := |commands| - 1;
      var before := LogOf(records[..n + 1], commands[..n]);
      if NoOp(records[n], commands[n]) then before else before + [EventOf(commands[n])]
  }

  /** How many calls took effect. */
  function Transitions(records: seq<Record>, commands: seq<Command>): nat
    requires |records| == |commands| + 1
  {
    if commands == [] then 0
    else
      var n := |commands| - 1;
      Transitions(records[..n + 1], commands[..n]) + if NoOp(records[n], commands[n]) then 0 else 1
  }

  lemma RunPrefix(records: seq<Record>, commands: seq<Command>)
    requires IsRun(records, commands) && commands != []
    ensures var n := |commands| - 1; IsRun(records[..n + 1], commands[..n])
  {
    hide Apply, Plan;
    var n := |commands| - 1;
    assert records[..n + 1][0] == records[0];
    forall i | 0 <= i < n
      ensures Apply(records[..n + 1][i], commands[..n][i]) == Ok(records[..n + 1][i + 1])
    {
      assert Apply(records[i], commands[i]) == Ok(records[i + 1]);
    }
  }

  /** Over every run: the record is sound, what it is and whom it is for never changes, and its log is the newest part
      of everything that happened, of which nothing is missing but what the truncation count says. */
  lemma {:induction false} RunKeeps(records: seq<Record>, commands: seq<Command>)
    requires IsRun(records, commands)
    ensures var n, log := |commands|, LogOf(records, commands);
      && RecordOk(records[n])
      && records[n].id == records[0].id && records[n].order == records[0].order &&
        records[n].target == records[0].target
      && |log| == 2 + Transitions(records, commands)
      && records[n].truncated <= |log| && records[n].events == log[records[n].truncated..]
  {
    hide RecordOk, Apply, EventOf;
    var n := |commands|;
    if n == 0 {
      var id, order, target, at :| records[0] == Plan(id, order, target, at);
      PlannedOk(id, order, target, at);
    } else {
      RunPrefix(records, commands);
      RunKeeps(records[..n], commands[..n - 1]);
      var r, c, q := records[n - 1], commands[n - 1], records[n];
      assert Apply(r, c) == Ok(q);
      CallsAreGuarded(r, c);
      var before := LogOf(records[..n], commands[..n - 1]);
      if !NoOp(r, c) {
        BoundedIsSuffix(before, r.truncated, r.events, EventOf(c));
      }
    }
  }

  lemma BoundedIsSuffix(log: seq<Event>, truncated: nat, events: seq<Event>, e: Event)
    requires truncated <= |log| && events == log[truncated..]
    ensures var (after, count) := AppendBounded(events, e, truncated);
      count <= |log| + 1 && after == (log + [e])[count..]
  {
    assert log[truncated..] + [e] == (log + [e])[truncated..];
    if |events| + 1 > MAX_EXECUTION_EVENTS {
      assert (log + [e])[truncated..][1..] == (log + [e])[truncated + 1..];
    }
  }

  /** Kept events and the truncation count always add up to two plus the calls that took effect. */
  lemma EventsAddUp(records: seq<Record>, commands: seq<Command>)
    requires IsRun(records, commands)
    ensures var r := records[|commands|];
      && |r.events| + r.truncated == 2 + Transitions(records, commands)
      && (r.truncated > 0 ==> |r.events| == 100)
  {
    hide LogOf, Transitions, ValidRecord, RunningOk, TimesOk, Apply, Plan;
    RunKeeps(records, commands);
    var r := records[|commands|];
    assert |LogOf(records, commands)[r.truncated..]| == |LogOf(records, commands)| - r.truncated;
  }

  /** At most two attempts, numbered from one; only the last can be running, which it does exactly while the execution
      runs or waits for an approval. */
  predicate AttemptsBounded(r: Record) {
    && |r.attempts| <= 2
    && (forall i :: 0 <= i < |r.attempts| ==> r.attempts[i].number == i + 1)
    && (forall i :: 0 <= i < |r.attempts| && r.attempts[i].status.AttemptRunning? ==> i == |r.attempts| - 1)
    && (LastStatus(r.attempts) == Some(AttemptRunning) <==> r.status.Running? || r.status.AwaitingApproval?)
  }

  lemma OkIsBounded(r: Record)
    requires RecordOk(r)
    ensures AttemptsBounded(r)
  {
    hide ValidEvents, ValidProofs, TimesOk;
    if r.attempts != [] {
      var last := r.attempts[|r.attempts| - 1];
      assert last.status.AttemptRunning? <==> Active(r.status);
    }
  }

  lemma AttemptsStayBounded(records: seq<Record>, commands: seq<Command>)
    requires IsRun(records, commands)
    ensures AttemptsBounded(records[|commands|])
  {
    hide LogOf, Transitions, RecordOk, AttemptsBounded;
    RunKeeps(records, commands);
    OkIsBounded(records[|commands|]);
  }

  // What each call does.

  /** The last attempt, which was running, has ended in this way; the earlier ones are as they were. */
  predicate EndedAs(r: Record, q: Record, ending: AttemptStatus, at: int) {
    && r.attempts != [] && |q.attempts| == |r.attempts|
    && (forall i :: 0 <= i < |r.attempts| - 1 ==> q.attempts[i] == r.attempts[i])
    && var before, after := r.attempts[|r.attempts| - 1], q.attempts[|r.attempts| - 1];
       && before.status.AttemptRunning? && after.status == ending && after.endedAt == Some(at)
       && after.number == before.number && after.startedAt == before.startedAt && after.session == before.session
  }

  /** Where a call leads: the new status, what becomes of the attempts, and the reason on record. */
  predicate LeadsTo(r: Record, c: Command, q: Record) {
    match c
    case Begin(at, session) =>
      && q.status.Running? && q.reason == r.reason
      && q.attempts == r.attempts + [Attempt(|r.attempts| + 1, AttemptRunning, at, None, session)]
    case AwaitApproval(reason, _) => q.status.AwaitingApproval? && q.reason == Some(reason) && q.attempts == r.attempts
    case Approve(at) => q.status.Planned? && q.reason == None && EndedAs(r, q, AttemptInterrupted, at)
    case Succeed(_, at) => q.status.Succeeded? && q.reason == None && EndedAs(r, q, AttemptSucceeded, at)
    case RecordSession(id, _) =>
      && q.status == r.status && q.reason == r.reason && |q.attempts| == |r.attempts| > 0
      && (forall i :: 0 <= i < |r.attempts| - 1 ==> q.attempts[i] == r.attempts[i])
      && q.attempts[|r.attempts| - 1] == r.attempts[|r.attempts| - 1].(session := Some(id))
    case Fail(reason, at) => q.status.Failed? && q.reason == Some(reason) && EndedAs(r, q, AttemptFailed, at)
    case Cancel(reason, at) =>
      && q.status.Cancelled? && q.reason == Some(reason)
      && (if r.status.Planned? then q.attempts == r.attempts else EndedAs(r, q, AttemptCancelled, at))
    case Interrupt(reason, at) =>
      q.status.Interrupted? && q.reason == Some(reason) && EndedAs(r, q, AttemptInterrupted, at)
    case Reject(reason, _) => q.status.Rejected? && q.reason == Some(reason) && q.attempts == r.attempts
    case Retry(_) => q.status.Planned? && q.reason == None && q.attempts == r.attempts
    case AppendEvent(_, _, _) =>
      && q.status == r.status && q.attempts == r.attempts
      && q.reason == if r.status.Planned? || r.status.Succeeded? then None else r.reason
  }

  /** The session a call puts on record. */
  function SessionGiven(c: Command): Option<string> {
    match c
    case Begin(_, session) => session
    case RecordSession(id, _) => Some(id)
    case _ => None
  }

  /** The status an event of a transition announces. */
  function Announced(kind: string): Option<Status> {
    if kind == "started" then Some(Running)
    else if kind == "approval_requested" then Some(AwaitingApproval)
    else if kind in {"planned", "approved", "retry_planned"} then Some(Planned)
    else if kind == "succeeded" then Some(Succeeded)
    else if kind == "failed" then Some(Failed)
    else if kind == "cancelled" then Some(Cancelled)
    else if kind == "interrupted" then Some(Interrupted)
    else if kind == "rejected" then Some(Rejected)
    else None
  }

  /** The newest event says what happened: the status a transition led to, the reason where one was given, or the very
      event that was to be appended. */
  predicate EventTells(c: Command, q: Record, e: Event) {
    && e.at == c.at
    && (if c.AppendEvent? then e.kind == c.kind && e.detail == c.detail
        else if c.RecordSession? then e.kind == "provider_session_recorded"
        else Announced(e.kind) == Some(q.status) && (ReasonGiven(c) ==> e.detail == c.reason.detail))
  }

  lemma NewestEventTells(r: Record, c: Command, q: Record)
    requires RecordOk(r) && Apply(r, c) == Ok(q) && !NoOp(r, c)
    ensures q.events != [] && EventTells(c, q, q.events[|q.events| - 1])
  {
    hide RecordOk, Apply, LeadsTo;
    CallsAreGuarded(r, c);
    CallsTakeEffect(r, c, q);
    LedTo(r, c, q);
    assert q.events == AppendBounded(r.events, EventOf(c), r.truncated).0;
  }

  lemma LedTo(r: Record, c: Command, q: Record)
    requires LeadsTo(r, c, q)
    ensures !c.AppendEvent? && !c.RecordSession? ==> Announced(KindOf(c)) == Some(q.status)
  {
  }

  /** Each call that succeeds leads where it says, adds proofs only where it brings them, and keeps the session unless
      it brings one. */
  lemma CallsTakeEffect(r: Record, c: Command, q: Record)
    requires RecordOk(r) && Apply(r, c) == Ok(q)
    ensures LeadsTo(r, c, q)
    ensures q.proofs == if c.Succeed? then r.proofs + c.proofs else r.proofs
    ensures q.session == if SessionGiven(c).Some? then SessionGiven(c) else r.session
  {
    hide ValidRecord, EventOf, AppendBounded, ValidEvent, RunningOk, TimesOk;
  }

  /** Success and rejection are final. */
  lemma FinalStays(r: Record, c: Command, q: Record)
    requires RecordOk(r) && Apply(r, c) == Ok(q) && (r.status.Succeeded? || r.status.Rejected?)
    ensures q.status == r.status && q.attempts == r.attempts && q.proofs == r.proofs
  {
    hide ValidRecord, EventOf, AppendBounded, ValidEvent, RunningOk, TimesOk;
  }

  lemma StatesOk(records: seq<Record>, commands: seq<Command>, i: nat)
    requires IsRun(records, commands) && i <= |commands|
    ensures RecordOk(records[i])
  {
    hide RecordOk, Apply, Plan, LogOf, Transitions;
    forall k | 0 <= k < i
      ensures Apply(records[..i + 1][k], commands[..i][k]) == Ok(records[..i + 1][k + 1])
    {
      assert Apply(records[k], commands[k]) == Ok(records[k + 1]);
    }
    assert records[..i + 1][0] == records[0];
    RunKeeps(records[..i + 1], commands[..i]);
  }

  /** Over every run. */
  lemma {:induction false} FinalForGood(records: seq<Record>, commands: seq<Command>, i: nat, j: nat)
    requires IsRun(records, commands) && i <= j < |records|
    requires records[i].status.Succeeded? || records[i].status.Rejected?
    ensures records[j].status == records[i].status && records[j].attempts == records[i].attempts
    ensures records[j].proofs == records[i].proofs
    decreases j
  {
    hide RecordOk, Apply;
    if i < j {
      FinalForGood(records, commands, i, j - 1);
      StatesOk(records, commands, j - 1);
      FinalStays(records[j - 1], commands[j - 1], records[j]);
    }
  }

  /** An approval promises that the mission can be dispatched again. That holds exactly if it was the first attempt
      that waited: after the second, the record is planned but no call can begin it any more. */
  lemma ApprovedCanBegin(r: Record, at: int, q: Record)
    requires RecordOk(r) && Apply(r, Approve(at)) == Ok(q)
    ensures (exists c: Command :: c.Begin? && Apply(q, c).Ok?) <==> |r.attempts| < MAX_EXECUTION_ATTEMPTS
  {
    hide RecordOk, Apply, Extends;
    CallsAreGuarded(r, Approve(at));
    CallsTakeEffect(r, Approve(at), q);
    if |r.attempts| < MAX_EXECUTION_ATTEMPTS {
      var c := Begin(q.updatedAt, None);
      CallsAreGuarded(q, c);
      assert c.Begin? && Apply(q, c).Ok?;
    }
    if c: Command :| c.Begin? && Apply(q, c).Ok? {
      CallsAreGuarded(q, c);
    }
  }

  /** A call whose guard holds, and where it leads. */
  lemma Follow(r: Record, c: Command) returns (q: Record)
    requires RecordOk(r) && Guard(r, c) && !c.RecordSession?
    ensures Apply(r, c) == Ok(q) && RecordOk(q) && q.target == r.target && q.updatedAt == c.at
    ensures c.Begin? ==> q.status.Running? && |q.attempts| == |r.attempts| + 1
    ensures c.Fail? ==> q.status.Failed? && |q.attempts| == |r.attempts|
    ensures c.Retry? ==> q.status.Planned? && |q.attempts| == |r.attempts|
    ensures c.AwaitApproval? ==> q.status.AwaitingApproval? && |q.attempts| == |r.attempts|
    ensures c.Approve? ==> q.status.Planned? && |q.attempts| == |r.attempts|
  {
    hide RecordOk, Apply, Guard;
    CallsAreGuarded(r, c);
    q := Apply(r, c).value;
    CallsTakeEffect(r, c, q);
  }

  /** A run that ends there: the first attempt fails, the second waits for an approval and gets it, and the mission,
      said to be ready for dispatch, cannot begin any more. */
  lemma SecondApprovalStrands(id: string, order: Order, target: Target, at: int)
      returns (records: seq<Record>, commands: seq<Command>)
    requires !target.legacy
    ensures IsRun(records, commands) && |commands| == 6 && commands[5] == Approve(at)
    ensures records[6].status.Planned? && |records[6].attempts| == 2
    ensures forall c: Command :: c.Begin? ==> Apply(records[6], c).Err?
  {
    hide RecordOk, Apply;
    var reason := Reason(ProviderError, "detail");
    commands := [Begin(at, None), Fail(reason, at), Retry(at), Begin(at, None), AwaitApproval(reason, at), Approve(at)];
    PlannedOk(id, order, target, at);
    var r0 := Plan(id, order, target, at);
    var r1 := Follow(r0, commands[0]);
    var r2 := Follow(r1, commands[1]);
    var r3 := Follow(r2, commands[2]);
    var r4 := Follow(r3, commands[3]);
    var r5 := Follow(r4, commands[4]);
    var r6 := Follow(r5, commands[5]);
    records := [r0, r1, r2, r3, r4, r5, r6];
    ApprovedCanBegin(r5, at, r6);
  }

}
