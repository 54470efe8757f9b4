/** The framing journal, a compare-and-swap store, and the service that writes to it while others do the same. */
module FramingService {
  import opened Wrappers
  import opened FramingKnowledge
  import opened FramingPlan
  import opened Texts
  import opened FramingOperations
  import opened FramingRun
  import opened FramingRebase
  import FramingRefresh

  // The store.

  datatype SaveError = Unsound | Stale | NotSuccessor

  /** Who saved a revision: the call under consideration, or anyone else. */
  datatype Author = Caller | Others

  predicate Successor(current: Plan, next: Plan) {
    && next.id == current.id
    && next.target.projectId == current.target.projectId && next.target.framingId == current.target.framingId
    && next.previousRevision == Some(current.revision) && next.revision == current.revision + 1
  }

  /** Revision `i + 1` is at index `i`, and every stored plan meets the plan contract. */
  ghost predicate Stored(h: seq<Plan>) {
    h != [] && forall i :: 0 <= i < |h| ==> PlanOk(h[i]) && h[i].revision == i + 1
  }

  function Last(h: seq<Plan>): Plan
    requires h != []
  {
    h[|h| - 1]
  }

  class FramingStore {
    var history: seq<Plan>
    ghost var authors: seq<Author>

    ghost predicate Valid()
      reads this
    {
      Stored(history) && |authors| == |history|
    }

    constructor (plan: Plan)
      requires PlanOk(plan) && plan.revision == 1
      ensures Valid() && history == [plan] && authors == [Others]
    {
      history, authors := [plan], [Others];
    }

    method LoadLatest() returns (plan: Plan)
      requires Valid()
      ensures 1 <= plan.revision == |history| && plan == Last(history)
    {
      return history[|history| - 1];
    }

    method LoadRevision(revision: nat) returns (plan: Option<Plan>)
      requires Valid()
      ensures plan == if 1 <= revision <= |history| then Some(history[revision - 1]) else None
    {
      if revision < 1 || revision > |history| {
        return None;
      }
      return Some(history[revision - 1]);
    }

    /** Appends the plan exactly when it is sound, the caller saw the latest revision, and the plan is its direct
        successor; otherwise the journal is as it was. */
    method Save(ghost author: Author, expectedRevision: nat, plan: Plan) returns (r: Result<Plan, SaveError>)
      requires Valid()
      modifies this
      ensures Valid()
      ensures r.Ok? <==> PlanOk(plan) && expectedRevision == |old(history)| && Successor(Last(old(history)), plan)
      ensures r.Ok? ==> r.value == plan && history == old(history) + [plan] && authors == old(authors) + [author]
      ensures r.Err? ==> history == old(history) && authors == old(authors)
      ensures r == Err(Unsound) <==> !PlanOk(plan)
      ensures r == Err(Stale) <==> PlanOk(plan) && expectedRevision != |old(history)|
    {
      hide PlanOk;
      var sound := AssertPlan(plan);
      if !sound {
        return Err(Unsound);
      }
      var current := history[|history| - 1];
      if current.revision != expectedRevision {
        return Err(Stale);
      }
      if !Successor(current, plan) {
        return Err(NotSuccessor);
      }
      history, authors := history + [plan], authors + [author];
      return Ok(plan);
    }
  }

  // Rebasing, as it runs.

  function IdsOf(items: seq<Item>): set<Id> {
    set item | item in items :: item.id
  }

  /** The changed knowledge keys of some sections. */
  ghost predicate ChangedIn(base: Plan, current: Plan, sections: seq<Section>, keys: seq<Key>) {
    forall key :: key in keys <==> key.KnowledgeKey? && key.section in sections && Changed(base, current, key)
  }

  method ChangedKeys(base: Plan, current: Plan) returns (keys: seq<Key>)
    requires HasEverySection(base.knowledge) && HasEverySection(current.knowledge)
    ensures forall key :: key in keys <==> Changed(base, current, key)
  {
    hide Changed;
    EverySectionPresent(base.knowledge);
    EverySectionPresent(current.knowledge);
    keys := ChangedInSections(base, current, SECTIONS);
    forall s: Section
      ensures s in SECTIONS
    {
      EverySectionListed(s);
    }
    OtherKeysChanged(base, current);
    if base.probe != current.probe {
      keys := keys + [ProbeKey];
    }
    if base.decomposition != current.decomposition {
      keys := keys + [DecompositionKey];
    }
    forall key
      ensures key in keys <==> Changed(base, current, key)
    {
      match key
      case KnowledgeKey(s, id) =>
      case ProbeKey =>
      case DecompositionKey =>
    }
  }

  method ChangedInSections(base: Plan, current: Plan, sections: seq<Section>) returns (keys: seq<Key>)
    requires forall s :: s in sections ==> s in base.knowledge && s in current.knowledge
    ensures ChangedIn(base, current, sections, keys)
  {
    hide Changed;
    keys := [];
    var n := 0;
    while n < |sections|
      invariant 0 <= n <= |sections|
      invariant ChangedIn(base, current, sections[..n], keys)
    {
      var more := ChangedInSection(base, current, sections[n]);
      assert sections[..n + 1] == sections[..n] + [sections[n]];
      keys := keys + more;
      n := n + 1;
    }
    assert sections[..n] == sections;
  }

  lemma OtherKeysChanged(base: Plan, current: Plan)
    ensures Changed(base, current, ProbeKey) <==> base.probe != current.probe
    ensures Changed(base, current, DecompositionKey) <==> base.decomposition != current.decomposition
  {
  }

  method ChangedInSection(base: Plan, current: Plan, s: Section) returns (keys: seq<Key>)
    requires s in base.knowledge && s in current.knowledge
    ensures forall key :: key in keys <==> key.KnowledgeKey? && key.section == s && Changed(base, current, key)
  {
    hide Changed;
    keys := [];
    var left := IdsOf(base.knowledge[s] + current.knowledge[s]);
    ghost var all := left;
    while left != {}
      invariant left <= all
      invariant forall key :: key in keys <==>
        key.KnowledgeKey? && key.section == s && key.id in all - left && Changed(base, current, key)
      decreases |left|
    {
      var id :| id in left;
      var changed := ItemsWithId(base.knowledge[s], id) != ItemsWithId(current.knowledge[s], id);
      KnowledgeKeyChanged(base, current, s, id);
      if changed {
        keys := keys + [KnowledgeKey(s, id)];
      }
      left := left - {id};
    }
    forall id | id !in all
      ensures !Changed(base, current, KnowledgeKey(s, id))
    {
      KnowledgeKeyChanged(base, current, s, id);
      AbsentId(base.knowledge[s], id);
      AbsentId(current.knowledge[s], id);
    }
    assert forall key: Key :: key.KnowledgeKey? && key.section == s && Changed(base, current, key) ==>
      key == KnowledgeKey(s, key.id) && key.id in all;
  }

  lemma KnowledgeKeyChanged(base: Plan, current: Plan, s: Section, id: Id)
    requires s in base.knowledge && s in current.knowledge
    ensures Changed(base, current, KnowledgeKey(s, id)) <==>
      ItemsWithId(base.knowledge[s], id) != ItemsWithId(current.knowledge[s], id)
  {
  }

  lemma {:induction false} AbsentId(items: seq<Item>, id: Id)
    requires forall item :: item in items ==> item.id != id
    ensures ItemsWithId(items, id) == []
  {
    if items != [] {
      assert items[0] in items;
      AbsentId(items[1..], id);
    }
  }

  method Intersect(left: seq<Key>, delta: Delta) returns (overlap: set<Key>)
    ensures forall key :: key in overlap <==> key in left && exists op :: op in delta.operations && KeyOf(op) == key
  {
    var right := set op | op in delta.operations :: KeyOf(op);
    overlap := set key | key in left && key in right;
  }

  method RebaseDelta(base: Plan, current: Plan, delta: Delta, suffix: Suffix) returns (r: Result<Delta, RebaseError>)
    requires HasEverySection(base.knowledge) && HasEverySection(current.knowledge)
    requires delta.baseRevision != current.revision
    ensures r == Rebased(base, current, delta, suffix)
  {
    hide Changed, Preserved;
    var changed := ChangedKeys(base, current);
    var overlap := Intersect(changed, delta);
    forall op | op in delta.operations
      ensures KeyOf(op) in overlap <==> Overlaps(base, current, op)
    {
    }
    if overlap == {} {
      NoOverlapKeepsOperations(base, current, delta, suffix, delta.operations);
      return Ok(Delta(delta.planId, current.revision, delta.operations, delta.reason));
    }
    r := PreserveConcurrentContradictions(base, current, delta, suffix, overlap);
  }

  method PreserveConcurrentContradictions(ghost base: Plan, current: Plan, delta: Delta, suffix: Suffix,
        overlap: set<Key>)
      returns (r: Result<Delta, RebaseError>)
    requires forall op :: op in delta.operations ==> (KeyOf(op) in overlap <==> Overlaps(base, current, op))
    requires delta.baseRevision != current.revision
    requires exists op :: op in delta.operations && Overlaps(base, current, op)
    ensures r == Rebased(base, current, delta, suffix)
  {
    hide Overlaps, Alternative, Contradiction;
    var operations: seq<Operation> := [];
    var i := 0;
    while i < |delta.operations|
      invariant 0 <= i <= |delta.operations|
      invariant Preserved(base, current, delta, suffix, delta.operations[..i]) == Ok(operations)
    {
      var op := delta.operations[i];
      assert delta.operations[..i + 1][..i] == delta.operations[..i];
      if KeyOf(op) !in overlap {
        operations := operations + [op];
      } else {
        if !op.UpsertKnowledge? {
          PreservedStops(base, current, delta, suffix, i);
          return Err(ConflictOn(KeyOf(op)));
        }
        operations := operations + [Alternative(delta, suffix, op), Contradiction(delta, suffix, op)];
      }
      i := i + 1;
    }
    assert delta.operations[..i] == delta.operations;
    return Ok(Delta(delta.planId, current.revision, operations, delta.reason + PRESERVED));
  }

  lemma PreservedStops(base: Plan, current: Plan, delta: Delta, suffix: Suffix, i: nat)
    requires i < |delta.operations| && Preserved(base, current, delta, suffix, delta.operations[..i]).Ok?
    requires Overlaps(base, current, delta.operations[i]) && !delta.operations[i].UpsertKnowledge?
    ensures Preserved(base, current, delta, suffix, delta.operations) == Err(ConflictOn(KeyOf(delta.operations[i])))
  {
    hide Overlaps;
    assert delta.operations[..i + 1][..i] == delta.operations[..i];
    ErrorKept(base, current, delta, suffix, delta.operations, i + 1);
  }

  lemma {:induction false} ErrorKept(base: Plan, current: Plan, delta: Delta, suffix: Suffix, ops: seq<Operation>,
        i: nat)
    requires i <= |ops| && Preserved(base, current, delta, suffix, ops[..i]).Err?
    ensures Preserved(base, current, delta, suffix, ops) == Preserved(base, current, delta, suffix, ops[..i])
    decreases |ops|
  {
    hide Overlaps;
    if i < |ops| {
      assert ops[..|ops| - 1][..i] == ops[..i];
      ErrorKept(base, current, delta, suffix, ops[..|ops| - 1], i);
    } else {
      assert ops[..i] == ops;
    }
  }

  // The service.

  datatype ServiceError = Busy | BaseUnavailable | ConflictingKey(key: Key) | Refused(cause: FramingError)
    | SaveRefused(reason: SaveError)

  method Perform(p: Plan, c: Command) returns (r: Result<Plan, FramingError>)
    ensures r == Step(p, c)
  {
    hide StabilizeIntentOf, StabilizeGroundedOf, ApplyDelta, MarkPublished;
    match c
    case ChangeBy(delta, now) => r := ApplyFramingDelta(p, delta, now);
    case ConfirmIntent(actorId, actual, expected, now) => r := StabilizeFramingPlan(p, Intent, actorId, actual,
      expected, now);
    case ConfirmGrounded(actorId, actual, expected, now) => r := StabilizeFramingPlan(p, GroundedPlan, actorId, actual,
      expected, now);
    case Publish(publication, now) => r := MarkPublished(p, publication, now);
  }

  /** The delta as the service would apply it to `current`, given the stored history. */
  ghost function RebasedIn(h: seq<Plan>, current: Plan, delta: Delta, suffix: Suffix): Result<Delta, ServiceError> {
    if delta.baseRevision == current.revision then Ok(delta)
    else if !(1 <= delta.baseRevision <= |h|) then Err(BaseUnavailable)
    else match Rebased(h[delta.baseRevision - 1], current, delta, suffix)
      case Ok(d) => Ok(d)
      case Err(e) => Err(ConflictingKey(e.key))
  }

  /** `q` is the rebased delta applied to the latest of `h`. */
  ghost predicate Merged(h: seq<Plan>, delta: Delta, suffix: Suffix, q: Plan) {
    && h != []
    && exists d, now :: RebasedIn(h, Last(h), delta, suffix) == Ok(d) && ApplyDelta(Last(h), d, now) == Ok(q)
  }

  /** Why the call failed; `start` revisions were there when it began. */
  ghost predicate Justified(h: seq<Plan>, start: nat, delta: Delta, suffix: Suffix, e: ServiceError) {
    match e
    case Busy => |h| >= start + 5
    case BaseUnavailable => delta.baseRevision < 1 || delta.baseRevision > start
    case ConflictingKey(key) =>
      exists i :: 0 <= i < |h| && start <= i + 1 && RebasedIn(h, h[i], delta, suffix) == Err(ConflictingKey(key))
    case Refused(cause) =>
      exists i, now :: 0 <= i < |h| && start <= i + 1 && RefusedAt(h, i, delta, suffix, now, cause)
    case SaveRefused(reason) =>
      reason == Unsound && exists i, now :: 0 <= i < |h| && start <= i + 1 && UnsoundAt(h, i, delta, suffix, now)
  }

  ghost predicate RefusedAt(h: seq<Plan>, i: nat, delta: Delta, suffix: Suffix, now: int, cause: FramingError)
    requires i < |h|
  {
    && RebasedIn(h, h[i], delta, suffix).Ok?
    && ApplyDelta(h[i], RebasedIn(h, h[i], delta, suffix).value, now) == Err(cause)
  }

  ghost predicate UnsoundAt(h: seq<Plan>, i: nat, delta: Delta, suffix: Suffix, now: int)
    requires i < |h|
  {
    && RebasedIn(h, h[i], delta, suffix).Ok?
    && ApplyDelta(h[i], RebasedIn(h, h[i], delta, suffix).value, now).Ok?
    && !PlanOk(ApplyDelta(h[i], RebasedIn(h, h[i], delta, suffix).value, now).value)
  }

  /** From index `start` on, every revision was saved by others. */
  ghost predicate OthersFrom(authors: seq<Author>, start: nat) {
    forall i :: start <= i < |authors| ==> authors[i] == Others
  }

  /** What a call that began after `start` revisions left behind. On success it saved one revision, the last one: the
      delta rebased onto the very revision before it. On failure it saved nothing, for a reason that held. */
  ghost predicate Outcome(start: nat, h: seq<Plan>, authors: seq<Author>, delta: Delta, suffix: Suffix,
        r: Result<Plan, ServiceError>) {
    match r
    case Ok(q) =>
      && start < |h| == |authors|
      && Merged(h[..|h| - 1], delta, suffix, q) && q == Last(h)
      && OthersFrom(authors[..|h| - 1], start) && authors[|h| - 1] == Caller
    case Err(e) => Justified(h, start, delta, suffix, e) && OthersFrom(authors, start)
  }

  /** What an attempt answers that reads `h[i]` and gets to save. */
  ghost function AnswerAt(h: seq<Plan>, i: nat, delta: Delta, suffix: Suffix, now: int): Result<Plan, ServiceError>
    requires i < |h|
  {
    match RebasedIn(h, h[i], delta, suffix)
    case Err(e) => Err(e)
    case Ok(d) =>
      match ApplyDelta(h[i], d, now)
      case Err(cause) => Err(Refused(cause))
      case Ok(q) => if PlanOk(q) then Ok(q) else Err(SaveRefused(Unsound))
  }

  /** The answer of the attempt that read revision `read + 1`, not before the call began. */
  ghost predicate AnsweredBy(start: nat, h: seq<Plan>, delta: Delta, suffix: Suffix, r: Result<Plan, ServiceError>,
        read: nat, now: int) {
    read < |h| && start <= read + 1 && r == AnswerAt(h, read, delta, suffix, now)
  }

  /** `q` confirms the latest of `h`, which carries the expected fingerprint; a grounded one, on the repository as
      observed. */
  ghost predicate Confirmed(h: seq<Plan>, kind: StabilizationKind, actorId: Id, expected: string,
        fingerprint: Plan -> string, observed: Probe, q: Plan) {
    && h != [] && fingerprint(Last(h)) == expected
    && (kind.GroundedPlan? ==> observed.workspaceFingerprint == Last(h).probe.workspaceFingerprint)
    && exists now :: StabilizedAs(Last(h), kind, actorId, expected, expected, now) == Ok(q)
  }

  /** `q` refreshes the latest of `h`, because the plan the call read had been probed on another repository state. */
  ghost predicate Refreshed(h: seq<Plan>, start: nat, kind: StabilizationKind, observed: Probe, suffix: Suffix,
        q: Plan) {
    exists i :: start <= i + 1 && 0 <= i < |h| && RefreshedFrom(h, i, kind, observed, suffix, q)
  }

  ghost predicate RefreshedFrom(h: seq<Plan>, i: nat, kind: StabilizationKind, observed: Probe, suffix: Suffix, q: Plan)
    requires i < |h|
  {
    && kind.GroundedPlan? && h[i].probe.workspaceFingerprint != observed.workspaceFingerprint
    && Merged(h, FramingRefresh.RefreshDelta(h[i], observed), suffix, q)
  }

  /** A refresh is answered like any delta. */
  ghost predicate RefreshAnswered(start: nat, h: seq<Plan>, refresh: Delta, suffix: Suffix,
        r: Result<Plan, ServiceError>) {
    r == Err(Busy) || exists i, now :: AnsweredBy(start, h, refresh, suffix, r, i, now)
  }

  /** What a confirmation answers that read revision `read + 1`, not before the call began: refused on another
      fingerprint; on another state of the repository, whatever the refresh comes to; otherwise the confirmed plan, the
      reason it cannot be confirmed, or that somebody else wrote meanwhile. */
  ghost predicate StabilizeAnswered(start: nat, h: seq<Plan>, kind: StabilizationKind, actorId: Id, expected: string,
        fingerprint: Plan -> string, observed: Probe, suffix: Suffix, r: Result<Plan, ServiceError>, read: nat,
        clock: int) {
    && read < |h| && start <= read + 1
    && if fingerprint(h[read]) != expected then r == Err(Refused(FingerprintChanged))
       else if kind.GroundedPlan? && observed.workspaceFingerprint != h[read].probe.workspaceFingerprint then
         RefreshAnswered(start, h, FramingRefresh.RefreshDelta(h[read], observed), suffix, r)
       else ConfirmationAnswered(h, StabilizedAs(h[read], kind, actorId, expected, expected, clock), r, read)
  }

  ghost predicate ConfirmationAnswered(h: seq<Plan>, next: Result<Plan, FramingError>, r: Result<Plan, ServiceError>,
        read: nat) {
    match next
    case Err(cause) => r == Err(Refused(cause))
    case Ok(q) =>
      if !PlanOk(q) then r == Err(SaveRefused(Unsound))
      else (r == Ok(q) && |h| == read + 2) || (r == Err(SaveRefused(Stale)) && |h| > read + 1)
  }

  class FramingService {
    const store: FramingStore
    const suffix: Suffix
    const fingerprint: Plan -> string

    constructor (store: FramingStore, suffix: Suffix, fingerprint: Plan -> string)
      ensures this.store == store && this.suffix == suffix && this.fingerprint == fingerprint
    {
      this.store, this.suffix, this.fingerprint := store, suffix, fingerprint;
    }

    /** The journal is a run from its creation on. */
    ghost predicate Valid()
      reads store
    {
      store.Valid() && IsRun(store.history)
    }

    /** Other writers meanwhile: any number of commands, each computed on the revision it saw and saved against it. */
    method OthersWrite()
      requires Valid()
      modifies store
      ensures Valid() && old(store.history) <= store.history && old(store.authors) <= store.authors
      ensures OthersFrom(store.authors, |old(store.authors)|)
    {
      hide PlanOk, Step, Successor;
      var n: nat := *;
      while n > 0
        invariant Valid() && old(store.history) <= store.history && old(store.authors) <= store.authors
        invariant OthersFrom(store.authors, |old(store.authors)|)
        decreases n
      {
        var c: Command := *;
        var current := store.LoadLatest();
        var next := Perform(current, c);
        if next.Ok? {
          ghost var before := store.history;
          var saved := store.Save(Others, current.revision, next.value);
          if saved.Ok? {
            RunExtends(before, c, next.value);
          }
        }
        n := n - 1;
      }
    }

    /** Applies a delta whatever the others do. Unless five others were faster, the answer is that of one attempt: the
        plan the store accepts, or the error that stands against it. */
    method ApplyToJournal(delta: Delta) returns (r: Result<Plan, ServiceError>, ghost read: nat, ghost clock: int)
      requires Valid()
      modifies store
      ensures Valid() && old(store.history) <= store.history && old(store.authors) <= store.authors
      ensures Outcome(|old(store.history)|, store.history, store.authors, delta, suffix, r)
      ensures r == Err(Busy) || AnsweredBy(|old(store.history)|, store.history, delta, suffix, r, read, clock)
      ensures r.Ok? ==> read == |store.history| - 2
      ensures delta.baseRevision < 1 || delta.baseRevision > |store.history| ==> r == Err(BaseUnavailable)
    {
      hide Stored, IsRun, Outcome, AnsweredBy;
      var attempt := 0;
      while attempt < 5
        invariant 0 <= attempt <= 5
        invariant Valid() && old(store.history) <= store.history && old(store.authors) <= store.authors
        invariant OthersFrom(store.authors, |old(store.history)|)
        invariant |store.history| >= |old(store.history)| + attempt
        invariant attempt > 0 ==> 1 <= delta.baseRevision <= |store.history|
      {
        var finished;
        finished, read, clock := Attempt(delta, |old(store.history)|);
        if finished.Some? {
          return finished.value, read, clock;
        }
        attempt := attempt + 1;
      }
      FiveMeanwhile(|old(store.history)|, store.history, store.authors, delta, suffix);
      return Err(Busy), 0, 0;
    }

    /** One attempt; no result means that others were faster. */
    method Attempt(delta: Delta, ghost start: nat)
        returns (finished: Option<Result<Plan, ServiceError>>, ghost read: nat, ghost clock: int)
      requires Valid() && start <= |store.history| && OthersFrom(store.authors, start)
      modifies store
      ensures Valid() && old(store.history) <= store.history && old(store.authors) <= store.authors
      ensures finished.Some? ==> Outcome(start, store.history, store.authors, delta, suffix, finished.value)
      ensures finished.Some? ==> AnsweredBy(start, store.history, delta, suffix, finished.value, read, clock)
      ensures finished.Some? && finished.value.Ok? ==> read == |store.history| - 2
      ensures finished.None? ==> |old(store.history)| < |store.history| && OthersFrom(store.authors, start)
      ensures finished != Some(Err(BaseUnavailable)) ==> 1 <= delta.baseRevision <= |store.history|
    {
      hide PlanOk, Stored, Successor, ApplyDelta, RebasedIn, IsRun, Outcome, AnsweredBy;
      OthersWrite();
      var current := store.LoadLatest();
      read, clock := current.revision - 1, 0;
      OthersWrite();
      var applicable := Rebase(current, delta);
      if applicable.Err? {
        RebaseRefused(start, store.history, store.authors, delta, suffix, read, applicable.error, clock);
        return Some(Err(applicable.error)), read, clock;
      }
      ghost var seen := store.history;
      OthersWrite();
      RebasedStable(seen, store.history, current, delta, suffix);
      var now: int := *;
      clock := now;
      var next := ApplyFramingDelta(current, applicable.value, now);
      if next.Err? {
        DeltaRefused(start, store.history, store.authors, delta, suffix, read, now, next.error);
        return Some(Err(Refused(next.error))), read, clock;
      }
      DeltaSucceeds(current, applicable.value, now, next.value);
      ghost var before, owners := store.history, store.authors;
      var saved := store.Save(Caller, current.revision, next.value);
      if saved.Ok? {
        MergedOnce(start, before, owners, delta, suffix, applicable.value, next.value, now);
        return Some(Ok(next.value)), read, clock;
      }
      if saved.error.Unsound? {
        DeltaUnsound(start, store.history, store.authors, delta, suffix, read, now);
        return Some(Err(SaveRefused(saved.error))), read, clock;
      }
      return None, read, clock;
    }

    /** Confirms the intent or the grounded plan. A grounded confirmation first looks at the repository; if it moved,
        the plan is refreshed instead. */
    method Stabilize(kind: StabilizationKind, actorId: Id, expected: string, observed: Probe)
        returns (r: Result<Plan, ServiceError>, ghost read: nat, ghost clock: int)
      requires Valid()
      modifies store
      ensures Valid() && old(store.history) <= store.history && old(store.authors) <= store.authors
      ensures StabilizeAnswered(|old(store.history)|, store.history, kind, actorId, expected, fingerprint, observed,
        suffix, r, read, clock)
      ensures r.Ok? ==> |store.history| > |old(store.history)| && r.value == Last(store.history)
      ensures r.Ok? ==>
        var before := store.history[..|store.history| - 1];
        Confirmed(before, kind, actorId, expected, fingerprint, observed, r.value) ||
          Refreshed(before, |old(store.history)|, kind, observed, suffix, r.value)
      ensures r.Err? ==> OthersFrom(store.authors, |old(store.history)|)
    {
      hide PlanOk, Stored, Successor, ApplyDelta, Justified, IsRun, Merged, Confirms, NextAction, AnsweredBy,
        StabilizeIntentOf, StabilizeGroundedOf, Confirmed, Refreshed;
      OthersWrite();
      var current := store.LoadLatest();
      read, clock := current.revision - 1, 0;
      if fingerprint(current) != expected {
        return Err(Refused(FingerprintChanged)), read, clock;
      }
      OthersWrite();
      if kind.GroundedPlan? && observed.workspaceFingerprint != current.probe.workspaceFingerprint {
        var refresh := FramingRefresh.RefreshDelta(current, observed);
        var answer, at, now := ApplyToJournal(refresh);
        r := answer;
        RefreshIsAnswered(|old(store.history)|, store.history, refresh, suffix, r, at, now);
        if r.Ok? {
          RefreshedBy(store.history[..|store.history| - 1], |old(store.history)|, kind, observed, suffix, r.value,
            current.revision - 1);
        }
        return r, read, clock;
      }
      var now: int := *;
      clock := now;
      var next := StabilizeFramingPlan(current, kind, actorId, fingerprint(current), expected, now);
      if next.Err? {
        return Err(Refused(next.error)), read, clock;
      }
      ghost var before := store.history;
      ConfirmationSucceeds(current, kind, actorId, fingerprint(current), expected, now, next.value);
      var saved := store.Save(Caller, current.revision, next.value);
      if saved.Err? {
        return Err(SaveRefused(saved.error)), read, clock;
      }
      ConfirmedBy(before, kind, actorId, expected, fingerprint, observed, next.value, now);
      assert store.history[..|store.history| - 1] == before;
      return Ok(next.value), read, clock;
    }

    method Rebase(current: Plan, delta: Delta) returns (r: Result<Delta, ServiceError>)
      requires Valid() && 1 <= current.revision <= |store.history| && current == store.history[current.revision - 1]
      ensures r == RebasedIn(store.history, current, delta, suffix)
      ensures r.Ok? || r.error != BaseUnavailable ==> 1 <= delta.baseRevision <= |store.history|
    {
      hide PlanOk, Rebased, IsRun, Stored, HasEverySection;
      if delta.baseRevision == current.revision {
        return Ok(delta);
      }
      var base := store.LoadRevision(delta.baseRevision);
      if base.None? {
        return Err(BaseUnavailable);
      }
      SectionsStored(store.history, delta.baseRevision - 1);
      SectionsStored(store.history, current.revision - 1);
      var rebased := RebaseDelta(base.value, current, delta, suffix);
      return if rebased.Ok? then Ok(rebased.value) else Err(ConflictingKey(rebased.error.key));
    }
  }

  /** Once the base can be read, later revisions do not change the rebased delta. */
  lemma RebasedStable(h: seq<Plan>, later: seq<Plan>, current: Plan, delta: Delta, suffix: Suffix)
    requires h <= later && RebasedIn(h, current, delta, suffix) != Err(BaseUnavailable)
    ensures RebasedIn(later, current, delta, suffix) == RebasedIn(h, current, delta, suffix)
  {
    hide Rebased;
  }

  lemma ConfirmationSucceeds(p: Plan, kind: StabilizationKind, actorId: Id, actual: string, expected: string, now: int,
        q: Plan)
    requires StabilizedAs(p, kind, actorId, actual, expected, now) == Ok(q)
    ensures Successor(p, q)
  {
    hide PlanOk, DeriveState, CanStabilizeGroundedPlan, HasProductSubstance;
  }

  /** Whoever is answered from a later revision on, is answered. */
  lemma RefreshIsAnswered(start: nat, h: seq<Plan>, refresh: Delta, suffix: Suffix, r: Result<Plan, ServiceError>,
        i: nat, now: int)
    requires r == Err(Busy) || (exists later: nat :: start <= later && AnsweredBy(later, h, refresh, suffix, r, i, now))
    ensures RefreshAnswered(start, h, refresh, suffix, r)
  {
    hide AnswerAt;
    if later: nat :| start <= later && AnsweredBy(later, h, refresh, suffix, r, i, now) {
      assert AnsweredBy(start, h, refresh, suffix, r, i, now);
    }
  }

  lemma DeltaSucceeds(p: Plan, delta: Delta, now: int, q: Plan)
    requires ApplyDelta(p, delta, now) == Ok(q)
    ensures Successor(p, q)
  {
    hide PlanOk, ApplyOperations, DeriveState;
  }

  lemma RunExtends(h: seq<Plan>, c: Command, q: Plan)
    requires IsRun(h) && Step(Last(h), c) == Ok(q)
    ensures IsRun(h + [q])
  {
    hide Step, Initial;
    forall i | 0 <= i < |h + [q]| - 1
      ensures Next((h + [q])[i], (h + [q])[i + 1])
    {
      if i == |h| - 1 {
        assert Next(Last(h), q);
      } else {
        assert Next(h[i], h[i + 1]);
      }
    }
  }

  lemma MergedOnce(start: nat, h: seq<Plan>, authors: seq<Author>, delta: Delta, suffix: Suffix, d: Delta, q: Plan,
        now: int)
    requires start <= |h| == |authors| && OthersFrom(authors, start)
    requires IsRun(h) && RebasedIn(h, Last(h), delta, suffix) == Ok(d) && ApplyDelta(Last(h), d, now) == Ok(q)
    requires PlanOk(q)
    ensures Outcome(start, h + [q], authors + [Caller], delta, suffix, Ok(q)) && IsRun(h + [q])
    ensures AnsweredBy(start, h + [q], delta, suffix, Ok(q), |h| - 1, now)
  {
    hide PlanOk, ApplyDelta, RebasedIn, Initial, Next;
    RebasedStable(h, h + [q], Last(h), delta, suffix);
    assert (h + [q])[..|h|] == h && (authors + [Caller])[..|h|] == authors;
    assert Merged(h, delta, suffix, q);
    RunExtends(h, ChangeBy(d, now), q);
  }

  lemma RefreshedBy(h: seq<Plan>, start: nat, kind: StabilizationKind, observed: Probe, suffix: Suffix, q: Plan, i: nat)
    requires i < |h| && start <= i + 1 && kind.GroundedPlan?
    requires h[i].probe.workspaceFingerprint != observed.workspaceFingerprint
    requires Merged(h, FramingRefresh.RefreshDelta(h[i], observed), suffix, q)
    ensures Refreshed(h, start, kind, observed, suffix, q)
  {
    hide Merged;
    assert RefreshedFrom(h, i, kind, observed, suffix, q);
  }

  lemma ConfirmedBy(h: seq<Plan>, kind: StabilizationKind, actorId: Id, expected: string, fingerprint: Plan -> string,
        observed: Probe, q: Plan, now: int)
    requires h != [] && IsRun(h) && fingerprint(Last(h)) == expected
    requires kind.GroundedPlan? ==> observed.workspaceFingerprint == Last(h).probe.workspaceFingerprint
    requires StabilizedAs(Last(h), kind, actorId, expected, expected, now) == Ok(q)
    ensures Confirmed(h, kind, actorId, expected, fingerprint, observed, q) && IsRun(h + [q])
  {
    hide StabilizeIntentOf, StabilizeGroundedOf, Initial, Next;
    RunExtends(h, if kind.Intent? then ConfirmIntent(actorId, expected, expected, now) else ConfirmGrounded(actorId,
      expected, expected, now), q);
  }

  lemma SectionsStored(h: seq<Plan>, i: nat)
    requires Stored(h) && i < |h|
    ensures HasEverySection(h[i].knowledge)
  {
    SectionsOf(h[i]);
  }

  lemma FiveMeanwhile(start: nat, h: seq<Plan>, authors: seq<Author>, delta: Delta, suffix: Suffix)
    requires |h| >= start + 5 && OthersFrom(authors, start)
    ensures Outcome(start, h, authors, delta, suffix, Err(Busy))
  {
  }

  lemma RebaseRefused(start: nat, h: seq<Plan>, authors: seq<Author>, delta: Delta, suffix: Suffix, i: nat,
        e: ServiceError, now: int)
    requires i < |h| && start <= i + 1 && start <= |h| && OthersFrom(authors, start)
    requires RebasedIn(h, h[i], delta, suffix) == Err(e)
    ensures Outcome(start, h, authors, delta, suffix, Err(e)) && AnsweredBy(start, h, delta, suffix, Err(e), i, now)
  {
    hide Rebased, PlanOk, ApplyDelta;
  }

  lemma DeltaRefused(start: nat, h: seq<Plan>, authors: seq<Author>, delta: Delta, suffix: Suffix, i: nat, now: int,
        cause: FramingError)
    requires i < |h| && start <= i + 1 && OthersFrom(authors, start) && RefusedAt(h, i, delta, suffix, now, cause)
    ensures Outcome(start, h, authors, delta, suffix, Err(Refused(cause)))
    ensures AnsweredBy(start, h, delta, suffix, Err(Refused(cause)), i, now)
  {
    hide PlanOk, ApplyDelta, RebasedIn;
  }

  lemma DeltaUnsound(start: nat, h: seq<Plan>, authors: seq<Author>, delta: Delta, suffix: Suffix, i: nat, now: int)
    requires i < |h| && start <= i + 1 && OthersFrom(authors, start) && UnsoundAt(h, i, delta, suffix, now)
    ensures Outcome(start, h, authors, delta, suffix, Err(SaveRefused(Unsound)))
    ensures AnsweredBy(start, h, delta, suffix, Err(SaveRefused(Unsound)), i, now)
  {
    hide PlanOk, ApplyDelta, RebasedIn;
  }

}
