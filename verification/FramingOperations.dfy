/** The framing operations as they run: loops over items, sections and delta operations. */
module FramingOperations {
  import opened Wrappers
  import opened FramingKnowledge
  import opened FramingPlan
  import opened Texts
  import opened FramingRun
  import DependencyGraph

  // The plan contract.

  ghost predicate ActiveIn(items: seq<Item>, id: Id) {
    exists i :: 0 <= i < |items| && items[i].active && items[i].id == id
  }

  ghost predicate UniqueWithin(items: seq<Item>) {
    forall i, j :: 0 <= i < j < |items| && items[i].active && items[j].active ==> items[i].id != items[j].id
  }

  /** Adds the active ids of one section; fails on an id that was there before. */
  method CollectSection(items: seq<Item>, seen: set<Id>) returns (ok: bool, after: set<Id>)
    ensures ok <==> UniqueWithin(items) && forall id :: id in seen ==> !ActiveIn(items, id)
    ensures ok ==> forall id :: id in after <==> id in seen || ActiveIn(items, id)
  {
    after := seen;
    var i := 0;
    while i < |items|
      invariant 0 <= i <= |items|
      invariant UniqueWithin(items[..i])
      invariant forall j :: 0 <= j < i && items[j].active ==> items[j].id !in seen
      invariant forall id :: id in after <==> id in seen || ActiveIn(items[..i], id)
    {
      var item := items[i];
      assert items[..i + 1] == items[..i] + [item];
      if item.active {
        if item.id in after {
          if item.id !in seen {
            var j :| 0 <= j < |items[..i]| && items[..i][j].active && items[..i][j].id == item.id;
            assert items[j].active && items[j].id == items[i].id;
          }
          return false, after;
        }
        after := after + {item.id};
        assert items[..i + 1][i] == item;
      }
      assert forall id :: ActiveIn(items[..i + 1], id) <==>
        ActiveIn(items[..i], id) || (item.active && item.id == id) by {
        ActiveInExtended(items[..i], item);
      }
      i := i + 1;
    }
    assert items[..i] == items;
    return true, after;
  }

  lemma ActiveInExtended(items: seq<Item>, item: Item)
    ensures forall id :: ActiveIn(items + [item], id) <==> ActiveIn(items, id) || (item.active && item.id == id)
  {
    forall id
      ensures ActiveIn(items + [item], id) <==> ActiveIn(items, id) || (item.active && item.id == id)
    {
      if ActiveIn(items, id) {
        var i :| 0 <= i < |items| && items[i].active && items[i].id == id;
        assert (items + [item])[i] == items[i];
      }
      if item.active && item.id == id {
        assert (items + [item])[|items|] == item;
      }
    }
  }

  /** The first `n` sections hold no active id twice, and `seen` is what they hold. */
  ghost predicate Collected(k: Knowledge, n: nat, seen: set<Id>)
    requires n <= |SECTIONS| && HasEverySection(k)
  {
    && (forall a :: 0 <= a < n ==> UniqueWithin(k[SECTIONS[a]]))
    && (forall a, b, id :: 0 <= a < b < n && ActiveIn(k[SECTIONS[a]], id) ==> !ActiveIn(k[SECTIONS[b]], id))
    && (forall id :: id in seen <==> exists a :: 0 <= a < n && ActiveIn(k[SECTIONS[a]], id))
  }

  lemma SectionsDistinct(a: nat, b: nat)
    requires a < b < |SECTIONS|
    ensures SECTIONS[a] != SECTIONS[b]
  {
  }

  lemma CollectedMeansUnique(k: Knowledge, seen: set<Id>)
    requires HasEverySection(k) && Collected(k, |SECTIONS|, seen)
    ensures UniqueActive(k)
    ensures forall id :: id in seen <==> ActiveId(k, id)
  {
    forall s, i, t, j | ActiveAt(k, s, i) && ActiveAt(k, t, j) && k[s][i].id == k[t][j].id
      ensures s == t && i == j
    {
      EverySectionListed(s);
      EverySectionListed(t);
      var a :| 0 <= a < |SECTIONS| && SECTIONS[a] == s;
      var b :| 0 <= b < |SECTIONS| && SECTIONS[b] == t;
      assert ActiveIn(k[s], k[s][i].id) && ActiveIn(k[t], k[s][i].id);
      assert UniqueWithin(k[SECTIONS[a]]);
    }
    forall id
      ensures id in seen <==> ActiveId(k, id)
    {
      if ActiveId(k, id) {
        var s, i :| ActiveAt(k, s, i) && k[s][i].id == id;
        EverySectionListed(s);
        var a :| 0 <= a < |SECTIONS| && SECTIONS[a] == s;
        assert ActiveIn(k[SECTIONS[a]], id);
      }
      if a :| 0 <= a < |SECTIONS| && ActiveIn(k[SECTIONS[a]], id) {
        var i :| 0 <= i < |k[SECTIONS[a]]| && k[SECTIONS[a]][i].active && k[SECTIONS[a]][i].id == id;
        assert ActiveAt(k, SECTIONS[a], i);
      }
    }
  }

  lemma NotUnique(k: Knowledge, n: nat, seen: set<Id>)
    requires HasEverySection(k) && n < |SECTIONS| && Collected(k, n, seen)
    requires !(UniqueWithin(k[SECTIONS[n]]) && forall id :: id in seen ==> !ActiveIn(k[SECTIONS[n]], id))
    ensures !UniqueActive(k)
  {
    var s := SECTIONS[n];
    if !UniqueWithin(k[s]) {
      var i, j :| 0 <= i < j < |k[s]| && k[s][i].active && k[s][j].active && k[s][i].id == k[s][j].id;
      assert ActiveAt(k, s, i) && ActiveAt(k, s, j);
    } else {
      var id :| id in seen && ActiveIn(k[s], id);
      var a :| 0 <= a < n && ActiveIn(k[SECTIONS[a]], id);
      var i :| 0 <= i < |k[SECTIONS[a]]| && k[SECTIONS[a]][i].active && k[SECTIONS[a]][i].id == id;
      var j :| 0 <= j < |k[s]| && k[s][j].active && k[s][j].id == id;
      SectionsDistinct(a, n);
      assert ActiveAt(k, SECTIONS[a], i) && ActiveAt(k, s, j);
    }
  }

  lemma NothingCollected(k: Knowledge)
    requires HasEverySection(k)
    ensures Collected(k, 0, {})
  {
  }

  lemma CollectedOneMore(k: Knowledge, n: nat, seen: set<Id>, after: set<Id>)
    requires HasEverySection(k) && n < |SECTIONS| && Collected(k, n, seen)
    requires UniqueWithin(k[SECTIONS[n]]) && forall id :: id in seen ==> !ActiveIn(k[SECTIONS[n]], id)
    requires forall id :: id in after <==> id in seen || ActiveIn(k[SECTIONS[n]], id)
    ensures Collected(k, n + 1, after)
  {
    hide UniqueWithin, ActiveIn;
    forall a, b, id | 0 <= a < b < n + 1 && ActiveIn(k[SECTIONS[a]], id)
      ensures !ActiveIn(k[SECTIONS[b]], id)
    {
      if b == n {
        assert id in seen;
      }
    }
  }

  /** Active ids over all sections; fails when one is ambiguous. */
  method CollectActive(k: Knowledge) returns (ok: bool, seen: set<Id>)
    requires HasEverySection(k)
    ensures ok <==> UniqueActive(k)
    ensures ok ==> forall id :: id in seen <==> ActiveId(k, id)
  {
    hide UniqueActive, ActiveId, UniqueWithin, ActiveIn, Collected;
    seen := {};
    NothingCollected(k);
    var n := 0;
    while n < |SECTIONS|
      invariant 0 <= n <= |SECTIONS|
      invariant Collected(k, n, seen)
    {
      var fine, after := CollectSection(k[SECTIONS[n]], seen);
      if !fine {
        NotUnique(k, n, seen);
        return false, seen;
      }
      CollectedOneMore(k, n, seen, after);
      seen := after;
      n := n + 1;
    }
    CollectedMeansUnique(k, seen);
    return true, seen;
  }

  /** Every dependency of an active item is among the active ids. */
  method CheckDependencies(k: Knowledge, ids: set<Id>) returns (ok: bool)
    requires HasEverySection(k) && forall id :: id in ids <==> ActiveId(k, id)
    ensures ok <==> DependenciesActive(k)
  {
    hide ActiveId;
    var n := 0;
    while n < |SECTIONS|
      invariant 0 <= n <= |SECTIONS|
      invariant forall a :: 0 <= a < n ==> SectionDependenciesActive(k[SECTIONS[a]], ids)
    {
      if !SectionDependenciesActive(k[SECTIONS[n]], ids) {
        var i :| 0 <= i < |k[SECTIONS[n]]| && k[SECTIONS[n]][i].active && !forall d :: d in Deps(k[SECTIONS[n]][i]) ==>
          d in ids;
        assert ActiveAt(k, SECTIONS[n], i);
        return false;
      }
      n := n + 1;
    }
    forall s, i | ActiveAt(k, s, i)
      ensures forall d :: d in Deps(k[s][i]) ==> ActiveId(k, d)
    {
      EverySectionListed(s);
      var a :| 0 <= a < |SECTIONS| && SECTIONS[a] == s;
      assert SectionDependenciesActive(k[SECTIONS[a]], ids);
    }
    return true;
  }

  predicate SectionDependenciesActive(items: seq<Item>, ids: set<Id>) {
    forall i :: 0 <= i < |items| && items[i].active ==> forall d :: d in Deps(items[i]) ==> d in ids
  }

  predicate ItemsValid(k: Knowledge, revision: nat)
    requires HasEverySection(k)
  {
    forall n :: 0 <= n < |SECTIONS| ==> forall i :: 0 <= i < |k[SECTIONS[n]]| ==>
      ValidItem(k[SECTIONS[n]][i]) && RevisionsOk(k[SECTIONS[n]][i], revision)
  }

  lemma ItemsValidEverywhere(k: Knowledge, revision: nat)
    requires HasEverySection(k)
    ensures ItemsValid(k, revision) <==>
      forall s, i :: s in k && 0 <= i < |k[s]| ==> ValidItem(k[s][i]) && RevisionsOk(k[s][i], revision)
  {
    hide ValidItem, RevisionsOk;
    if ItemsValid(k, revision) {
      forall s, i | s in k && 0 <= i < |k[s]|
        ensures ValidItem(k[s][i]) && RevisionsOk(k[s][i], revision)
      {
        EverySectionListed(s);
        var n :| 0 <= n < |SECTIONS| && SECTIONS[n] == s;
        assert ValidItem(k[SECTIONS[n]][i]);
      }
    }
  }

  method CheckKnowledge(k: Knowledge, probe: Probe, revision: nat) returns (ok: bool)
    ensures ok <==> KnowledgeOk(k, probe, revision)
  {
    hide ItemsValid, UniqueActive, DependenciesActive, ActiveId, ValidItem, RevisionsOk;
    if !HasEverySection(k) {
      return false;
    }
    ItemsValidEverywhere(k, revision);
    if !ItemsValid(k, revision) {
      return false;
    }
    var unique, ids := CollectActive(k);
    if !unique {
      return false;
    }
    var closed := CheckDependencies(k, ids);
    if !closed {
      return false;
    }
    return forall item :: item in At(k, EvidenceClaims) && item.active ==> EvidenceCurrent(item, probe);
  }

  method CheckDecomposition(t: Target, d: Decomposition) returns (ok: bool)
    ensures ok <==> DecompositionOk(t, d)
  {
    var entries := EntriesOf(d);
    if !KindMatches(t, d) || !EntriesWellFormed(entries) || !EntriesOk(d) {
      return false;
    }
    var ids := seq(|entries|, i requires 0 <= i < |entries| => entries[i].id);
    forall id | id in EntryGraph(entries)
      ensures id in ids
    {
      var e :| e in entries && e.id == id;
      var i :| 0 <= i < |entries| && entries[i] == e;
      assert ids[i] == id;
    }
    ok := DependencyGraph.AssertAcyclic(EntryGraph(entries), ids);
  }

  method AssertPlan(p: Plan) returns (ok: bool)
    ensures ok <==> PlanOk(p)
  {
    hide KnowledgeOk, DecompositionOk, DeriveState;
    if p.revision < 1 || p.previousRevision != (if p.revision == 1 then None else Some(p.revision - 1)) ||
      p.createdAt > p.updatedAt {
      return false;
    }
    if !Identifier(p.id) || !TargetOk(p.target) || !ProbeOk(p.probe, p.target.projectId) {
      return false;
    }
    var known := CheckKnowledge(p.knowledge, p.probe, p.revision);
    if !known {
      return false;
    }
    if p.decomposition.Some? {
      var fine := CheckDecomposition(p.target, p.decomposition.value);
      if !fine {
        return false;
      }
    }
    if !StabilizationOk(p.intent, p.revision) || !StabilizationOk(p.groundedPlan, p.revision) {
      return false;
    }
    if p.groundedPlan.Some? && p.intent.None? {
      return false;
    }
    if p.publication.Some? && (p.groundedPlan.None? || !PublicationOk(p.publication, p.revision)) {
      return false;
    }
    return p.derived == DeriveState(p);
  }

  // Deltas.

  method SupersedeKnowledgeItem(k: Knowledge, s: Section, id: Id, heir: Id,
        revision: nat) returns (r: Result<Knowledge, FramingError>)
    requires HasEverySection(k)
    ensures r == Supersede(k, s, id, heir, revision)
  {
    if FindActive(At(k, s), id).None? {
      return Err(KnowledgeNotFound);
    }
    var marked := k[s := Retired(At(k, s), id, heir, revision)];
    var cascaded := CascadeInvalidation(marked, {id}, heir, revision);
    return Ok(cascaded);
  }

  method ApplyOne(t: Target, w: Draft, op: Operation, revision: nat) returns (r: Result<Draft, FramingError>)
    requires HasEverySection(w.knowledge)
    ensures r == ApplyOperation(t, w, op, revision)
    ensures r.Ok? ==> HasEverySection(r.value.knowledge)
  {
    hide Supersede, Upsert, DecompositionOk, HasEverySection;
    match op
    case UpsertKnowledge(s, value) =>
      UpsertKeepsSections(w.knowledge, s, value, revision);
      var k := Upsert(w.knowledge, s, value, revision);
      return if k.Ok? then Ok(w.(knowledge := k.value)) else Err(k.error);
    case SupersedeKnowledge(s, id, heir) =>
      SupersedeKeepsSections(w.knowledge, s, id, heir, revision);
      var k := SupersedeKnowledgeItem(w.knowledge, s, id, heir, revision);
      return if k.Ok? then Ok(w.(knowledge := k.value)) else Err(k.error);
    case InvalidateEvidence(id, heir) =>
      SupersedeKeepsSections(w.knowledge, EvidenceClaims, id, heir, revision);
      var k := SupersedeKnowledgeItem(w.knowledge, EvidenceClaims, id, heir, revision);
      return if k.Ok? then Ok(w.(knowledge := k.value)) else Err(k.error);
    case RecordProbe(probe) =>
      return if ProbeOk(probe, t.projectId) then Ok(w.(probe := probe)) else Err(InvalidProbe);
    case ProposeDecomposition(d) =>
      var fine := CheckDecomposition(t, d);
      return if fine then Ok(w.(decomposition := Some(d))) else Err(InvalidDecomposition);
  }

  method ApplyFramingDelta(p: Plan, delta: Delta, now: int) returns (r: Result<Plan, FramingError>)
    ensures r == ApplyDelta(p, delta, now)
  {
    hide PlanOk, ApplyOperation, DeriveState, HasEverySection;
    var valid := AssertPlan(p);
    if !valid {
      return Err(InvalidPlan);
    }
    if !DeltaOk(delta) {
      return Err(InvalidDelta);
    }
    if p.publication.Some? || p.groundedPlan.Some? {
      return Err(PlanClosed);
    }
    if delta.planId != p.id {
      return Err(WrongPlan);
    }
    if delta.baseRevision != p.revision {
      return Err(RevisionConflict);
    }
    PlanHasSections(p);
    var w := DraftOf(p);
    var i := 0;
    while i < |delta.operations|
      invariant 0 <= i <= |delta.operations|
      invariant HasEverySection(w.knowledge)
      invariant ApplyOperations(p.target, DraftOf(p), delta.operations[..i], p.revision + 1) == Ok(w)
    {
      var next := ApplyOne(p.target, w, delta.operations[i], p.revision + 1);
      assert delta.operations[..i + 1][..i] == delta.operations[..i];
      if next.Err? {
        ErrorSticks(p.target, DraftOf(p), delta.operations, p.revision + 1, i + 1);
        return Err(next.error);
      }
      w := next.value;
      i := i + 1;
    }
    assert delta.operations[..i] == delta.operations;
    return Ok(WithDerivedState(Advanced(p, now).(knowledge := w.knowledge, probe := w.probe,
      decomposition := w.decomposition)));
  }

  lemma PlanHasSections(p: Plan)
    requires PlanOk(p)
    ensures HasEverySection(p.knowledge)
  {
  }

  lemma {:induction false} ErrorSticks(t: Target, w: Draft, ops: seq<Operation>, revision: nat, i: nat)
    requires i <= |ops| && ApplyOperations(t, w, ops[..i], revision).Err?
    ensures ApplyOperations(t, w, ops, revision) == ApplyOperations(t, w, ops[..i], revision)
    decreases |ops|
  {
    hide ApplyOperation;
    if i < |ops| {
      assert ops[..|ops| - 1][..i] == ops[..i];
      ErrorSticks(t, w, ops[..|ops| - 1], revision, i);
    } else {
      assert ops[..i] == ops;
    }
  }

  // Stabilizations.

  datatype StabilizationKind = Intent | GroundedPlan

  ghost function StabilizedAs(p: Plan, kind: StabilizationKind, actorId: Id, actual: string, expected: string,
        now: int): Result<Plan, FramingError> {
    if kind.Intent? then StabilizeIntentOf(p, actorId, actual, expected, now)
      else StabilizeGroundedOf(p, actorId, actual, expected, now)
  }

  /** `q` is `p` with this one confirmation on record, as the next revision; nothing else of the plan moved. */
  predicate Confirms(p: Plan, q: Plan, kind: StabilizationKind, actorId: Id, fingerprint: string, now: int) {
    var confirmation := Some(Stabilization(p.revision, fingerprint, actorId, now));
    && q == p.(
      revision := p.revision + 1, previousRevision := Some(p.revision), updatedAt := now, derived := q.derived,
      intent := if kind.Intent? then confirmation else p.intent,
      groundedPlan := if kind.GroundedPlan? then confirmation else p.groundedPlan)
    && q.derived == DeriveState(q)
  }

  function Confirmation(kind: StabilizationKind): Action {
    match kind
    case Intent => StabilizeIntent
    case GroundedPlan => StabilizeGroundedPlan
  }

  /** A confirmation works exactly when the plan is sound, the caller saw this very plan, and confirming is the plan's
      next action. The confirmed plan is sound again unless the clock ran backwards, cannot be confirmed that way a
      second time, and says what comes next. */
  lemma ConfirmationLaw(p: Plan, kind: StabilizationKind, actorId: Id, actual: string, expected: string, now: int)
    ensures var r := StabilizedAs(p, kind, actorId, actual, expected, now);
      && (r.Ok? <==> PlanOk(p) && Identifier(actorId) && actual == expected && NextAction(p) == Confirmation(kind))
      && (r.Ok? ==>
            && Confirms(p, r.value, kind, actorId, expected, now)
            && (PlanOk(r.value) <==> p.createdAt <= now && IsHash(expected))
            && r.value.derived.productClarity.Stabilized? && NextAction(r.value) != Confirmation(kind)
            && (kind.GroundedPlan? ==>
              r.value.derived.planAuthority.Consumable? && r.value.derived.nextAction.PublishPlan?))
  {
    hide PlanOk, DeriveState, HasProductSubstance, Blocked, FactKind;
    if PlanOk(p) && Identifier(actorId) {
      NextActionWorks(p, actorId, expected, Publication(0, "", "", 0), now);
      var r := StabilizedAs(p, kind, actorId, actual, expected, now);
      if r.Ok? {
        ConfirmedSound(p, r.value, kind, actorId, expected, now);
        ConfirmedNext(p, r.value, kind, actorId, expected, now);
      }
    }
  }

  lemma ConfirmedSound(p: Plan, q: Plan, kind: StabilizationKind, actorId: Id, fingerprint: string, now: int)
    requires PlanOk(p) && StabilizedAs(p, kind, actorId, fingerprint, fingerprint, now) == Ok(q)
    ensures Confirms(p, q, kind, actorId, fingerprint, now)
    ensures PlanOk(q) <==> p.createdAt <= now && IsHash(fingerprint)
  {
    hide KnowledgeOk, DecompositionOk, IsGrounded, RecommendedPipeline, NextAction, HasProductSubstance,
      CanStabilizeGroundedPlan;
    KnowledgeLater(p.knowledge, p.probe, p.revision);
    DerivedIgnoresCache(q.(derived := p.derived), q.derived);
  }

  lemma KnowledgeLater(k: Knowledge, probe: Probe, revision: nat)
    requires KnowledgeOk(k, probe, revision)
    ensures KnowledgeOk(k, probe, revision + 1)
  {
    hide UniqueActive, DependenciesActive, ValidItem, EvidenceCurrent;
  }

  lemma ConfirmedNext(p: Plan, q: Plan, kind: StabilizationKind, actorId: Id, fingerprint: string, now: int)
    requires Confirms(p, q, kind, actorId, fingerprint, now) && NextAction(p) == Confirmation(kind)
    ensures q.derived.productClarity.Stabilized? && NextAction(q) != Confirmation(kind)
    ensures kind.GroundedPlan? ==> q.derived.planAuthority.Consumable? && q.derived.nextAction.PublishPlan?
  {
    hide HasProductSubstance, Blocked, FactKind, RecommendedPipeline;
  }

  method StabilizeFramingPlan(p: Plan, kind: StabilizationKind, actorId: Id, actual: string, expected: string, now: int)
      returns (r: Result<Plan, FramingError>)
    ensures r == StabilizedAs(p, kind, actorId, actual, expected, now)
    ensures r.Ok? <==> PlanOk(p) && Identifier(actorId) && actual == expected && NextAction(p) == Confirmation(kind)
    ensures r.Ok? ==> Confirms(p, r.value, kind, actorId, expected, now)
    ensures r.Ok? ==> (PlanOk(r.value) <==> p.createdAt <= now && IsHash(expected))
  {
    hide PlanOk, DeriveState, NextAction, Confirms;
    ConfirmationLaw(p, kind, actorId, actual, expected, now);
    var valid := AssertPlan(p);
    if !valid {
      return Err(InvalidPlan);
    }
    if !Identifier(actorId) {
      return Err(InvalidActor);
    }
    if actual != expected {
      return Err(FingerprintChanged);
    }
    var stabilization := Stabilization(p.revision, actual, actorId, now);
    if kind.Intent? {
      if p.intent.Some? {
        return Err(AlreadyStabilized);
      }
      if !HasProductSubstance(p.knowledge) {
        return Err(NoProductSubstance);
      }
      return Ok(WithDerivedState(Advanced(p, now).(intent := Some(stabilization))));
    }
    if p.intent.None? {
      return Err(IntentMissing);
    }
    if p.groundedPlan.Some? {
      return Err(AlreadyStabilized);
    }
    if !CanStabilizeGroundedPlan(p) {
      return Err(NotGrounded);
    }
    return Ok(WithDerivedState(Advanced(p, now).(groundedPlan := Some(stabilization))));
  }

}
