/** What every run of a framing plan keeps: revisions, append-only knowledge, write-once confirmations. */
module FramingRun {
  import opened Wrappers
  import opened FramingKnowledge
  import opened FramingPlan
  import opened Texts

  datatype Command =
    | ChangeBy(delta: Delta, now: int)
    | ConfirmIntent(actorId: Id, actual: string, expected: string, now: int)
    | ConfirmGrounded(actorId: Id, actual: string, expected: string, now: int)
    | Publish(publication: Publication, now: int)

  ghost function Step(p: Plan, c: Command): Result<Plan, FramingError> {
    match c
    case ChangeBy(delta, now) => ApplyDelta(p, delta, now)
    case ConfirmIntent(actorId, actual, expected, now) => StabilizeIntentOf(p, actorId, actual, expected, now)
    case ConfirmGrounded(actorId, actual, expected, now) => StabilizeGroundedOf(p, actorId, actual, expected, now)
    case Publish(publication, now) => MarkPublished(p, publication, now)
  }

  ghost predicate Next(p: Plan, q: Plan) {
    exists c :: Step(p, c) == Ok(q)
  }

  ghost predicate Initial(p: Plan) {
    exists id, target, probe, now :: p == CreatePlan(id, target, probe, now)
  }

  /** The plans a journal goes through, from its creation on. */
  ghost predicate IsRun(plans: seq<Plan>) {
    && plans != [] && Initial(plans[0])
    && forall i :: 0 <= i < |plans| - 1 ==> Next(plans[i], plans[i + 1])
  }

  // Append-only knowledge.

  /** The item as it was, or the active item superseded. */
  predicate Later(before: Item, after: Item) {
    || after == before
    || (before.active && !after.active
        && after == before.(active := false, supersededInRevision := after.supersededInRevision,
          supersededBy := after.supersededBy))
  }

  ghost predicate ItemsGrow(before: seq<Item>, after: seq<Item>) {
    |before| <= |after| && forall i :: 0 <= i < |before| ==> Later(before[i], after[i])
  }

  /** Items are appended or superseded, never dropped, edited or made active again. */
  ghost predicate KnowledgeGrows(before: Knowledge, after: Knowledge) {
    forall s :: s in before ==> s in after && ItemsGrow(before[s], after[s])
  }

  lemma GrowsTrans(a: Knowledge, b: Knowledge, c: Knowledge)
    requires KnowledgeGrows(a, b) && KnowledgeGrows(b, c)
    ensures KnowledgeGrows(a, c)
  {
    forall s | s in a
      ensures s in c && ItemsGrow(a[s], c[s])
    {
      assert ItemsGrow(a[s], b[s]) && ItemsGrow(b[s], c[s]);
      forall i | 0 <= i < |a[s]|
        ensures Later(a[s][i], c[s][i])
      {
        assert Later(a[s][i], b[s][i]) && Later(b[s][i], c[s][i]);
      }
    }
  }

  lemma RetiredGrows(k: Knowledge, s: Section, id: Id, heir: Id, revision: nat, more: seq<Item>)
    requires HasEverySection(k)
    ensures KnowledgeGrows(k, k[s := Retired(At(k, s), id, heir, revision) + more])
    ensures HasEverySection(k[s := Retired(At(k, s), id, heir, revision) + more])
  {
    EverySectionPresent(k);
  }

  lemma CascadedGrows(k: Knowledge, seeds: set<Id>, heir: Id, revision: nat)
    requires HasEverySection(k)
    ensures KnowledgeGrows(k, Cascaded(k, seeds, heir, revision))
    ensures HasEverySection(Cascaded(k, seeds, heir, revision))
  {
    var after := Cascaded(k, seeds, heir, revision);
    forall s | s in k
      ensures s in after && ItemsGrow(k[s], after[s])
    {
      assert after[s] == CascadedItems(k, seeds, k[s], heir, revision);
    }
  }

  lemma SupersedeGrows(k: Knowledge, s: Section, id: Id, heir: Id, revision: nat)
    requires HasEverySection(k) && Supersede(k, s, id, heir, revision).Ok?
    ensures KnowledgeGrows(k, Supersede(k, s, id, heir, revision).value)
    ensures HasEverySection(Supersede(k, s, id, heir, revision).value)
  {
    hide KnowledgeGrows, Cascaded, Retired;
    RetiredGrows(k, s, id, heir, revision, []);
    var marked := k[s := Retired(At(k, s), id, heir, revision)];
    assert Retired(At(k, s), id, heir, revision) + [] == Retired(At(k, s), id, heir, revision);
    CascadedGrows(marked, {id}, heir, revision);
    GrowsTrans(k, marked, Cascaded(marked, {id}, heir, revision));
  }

  lemma UpsertGrows(k: Knowledge, s: Section, input: ItemInput, revision: nat)
    requires HasEverySection(k) && Upsert(k, s, input, revision).Ok?
    ensures KnowledgeGrows(k, Upsert(k, s, input, revision).value)
    ensures HasEverySection(Upsert(k, s, input, revision).value)
  {
    var item := NewItem(input, revision);
    RetiredGrows(k, s, item.id, item.id, revision, [item]);
  }

  lemma UpsertKeepsSections(k: Knowledge, s: Section, input: ItemInput, revision: nat)
    requires HasEverySection(k)
    ensures Upsert(k, s, input, revision).Ok? ==> HasEverySection(Upsert(k, s, input, revision).value)
  {
  }

  lemma SupersedeKeepsSections(k: Knowledge, s: Section, id: Id, heir: Id, revision: nat)
    requires HasEverySection(k)
    ensures Supersede(k, s, id, heir, revision).Ok? ==> HasEverySection(Supersede(k, s, id, heir, revision).value)
  {
  }

  /** What a draft keeps while operations apply. */
  ghost predicate DraftFrom(t: Target, start: Draft, w: Draft) {
    && HasEverySection(w.knowledge)
    && KnowledgeGrows(start.knowledge, w.knowledge)
    && (w.decomposition.Some? ==> DecompositionOk(t, w.decomposition.value))
  }

  lemma OperationKeepsDraft(t: Target, start: Draft, w: Draft, op: Operation, revision: nat)
    requires DraftFrom(t, start, w) && ApplyOperation(t, w, op, revision).Ok?
    ensures DraftFrom(t, start, ApplyOperation(t, w, op, revision).value)
  {
    hide KnowledgeGrows, HasEverySection, Supersede, Upsert, DecompositionOk;
    var after := ApplyOperation(t, w, op, revision).value;
    match op
    case UpsertKnowledge(s, value) =>
      UpsertGrows(w.knowledge, s, value, revision);
      GrowsTrans(start.knowledge, w.knowledge, after.knowledge);
    case SupersedeKnowledge(s, id, heir) =>
      SupersedeGrows(w.knowledge, s, id, heir, revision);
      GrowsTrans(start.knowledge, w.knowledge, after.knowledge);
    case InvalidateEvidence(id, heir) =>
      SupersedeGrows(w.knowledge, EvidenceClaims, id, heir, revision);
      GrowsTrans(start.knowledge, w.knowledge, after.knowledge);
    case RecordProbe(_) =>
    case ProposeDecomposition(_) =>
  }

  lemma {:induction false} OperationsKeepDraft(t: Target, start: Draft, ops: seq<Operation>, revision: nat)
    requires HasEverySection(start.knowledge)
    requires (start.decomposition.Some? ==> DecompositionOk(t, start.decomposition.value))
    requires ApplyOperations(t, start, ops, revision).Ok?
    ensures DraftFrom(t, start, ApplyOperations(t, start, ops, revision).value)
  {
    if ops != [] {
      OperationsKeepDraft(t, start, ops[..|ops| - 1], revision);
      OperationKeepsDraft(t, start, ApplyOperations(t, start, ops[..|ops| - 1], revision).value, ops[|ops| - 1],
        revision);
    }
  }

  // Invariants of every state.

  /** A plan with a grounded stabilization is complete, grounded and unblocked. */
  ghost predicate FrozenOk(p: Plan) {
    p.groundedPlan.Some? ==>
      && p.intent.Some? && IsGrounded(p) && !Blocked(p.knowledge)
      && p.decomposition.Some? && DecompositionOk(p.target, p.decomposition.value)
      && p.derived.planAuthority == Consumable
  }

  ghost predicate StateOk(p: Plan) {
    && p.derived == DeriveState(p)
    && HasEverySection(p.knowledge)
    && (p.decomposition.Some? ==> DecompositionOk(p.target, p.decomposition.value))
    && (p.publication.Some? ==> p.groundedPlan.Some?)
    && FrozenOk(p)
  }

  /** What `q` may be when it comes later in the same journal. */
  ghost predicate Evolves(p: Plan, q: Plan) {
    && q.id == p.id && q.target == p.target && q.createdAt == p.createdAt
    && p.revision <= q.revision
    && KnowledgeGrows(p.knowledge, q.knowledge)
    && (p.intent.Some? ==> q.intent == p.intent)
    && (p.groundedPlan.Some? ==>
         q.groundedPlan == p.groundedPlan && q.knowledge == p.knowledge && q.probe == p.probe &&
           q.decomposition == p.decomposition)
    && (p.publication.Some? ==> q == p)
  }

  lemma InitialOk(p: Plan)
    requires Initial(p)
    ensures StateOk(p) && p.revision == 1 && p.intent.None? && p.groundedPlan.None? && p.publication.None?
  {
  }

  lemma EvolvesTrans(a: Plan, b: Plan, c: Plan)
    requires Evolves(a, b) && Evolves(b, c)
    ensures Evolves(a, c)
  {
    hide KnowledgeGrows;
    GrowsTrans(a.knowledge, b.knowledge, c.knowledge);
  }

  lemma GrowsRefl(k: Knowledge)
    ensures KnowledgeGrows(k, k)
  {
  }

  /** The derived state is computed from the plan's own data, never from its cached copy. */
  lemma DerivedIgnoresCache(p: Plan, cached: DerivedState)
    ensures DeriveState(p.(derived := cached)) == DeriveState(p)
    ensures IsGrounded(p.(derived := cached)) == IsGrounded(p)
  {
    assert NextAction(p.(derived := cached)) == NextAction(p);
    assert RecommendedPipeline(p.(derived := cached)) == RecommendedPipeline(p);
  }

  lemma DeltaKeepsState(p: Plan, delta: Delta, now: int, q: Plan)
    requires StateOk(p) && ApplyDelta(p, delta, now) == Ok(q)
    ensures StateOk(q) && Evolves(p, q) && q.revision == p.revision + 1 && q.previousRevision == Some(p.revision)
  {
    hide PlanOk, DeltaOk, DecompositionOk, ApplyOperations, KnowledgeGrows, HasEverySection, IsGrounded,
      RecommendedPipeline,
      NextAction;
    OperationsKeepDraft(p.target, DraftOf(p), delta.operations, p.revision + 1);
    DerivedIgnoresCache(q.(derived := p.derived), q.derived);
  }

  lemma StepOk(p: Plan, c: Command, q: Plan)
    requires StateOk(p) && Step(p, c) == Ok(q)
    ensures StateOk(q) && Evolves(p, q)
    ensures q == p || (q.revision == p.revision + 1 && q.previousRevision == Some(p.revision))
  {
    hide PlanOk, DecompositionOk, KnowledgeGrows, HasEverySection, RecommendedPipeline, NextAction, Blocked,
      ApplyDelta, HasProductSubstance, FactKind;
    GrowsRefl(p.knowledge);
    DerivedIgnoresCache(q.(derived := p.derived), q.derived);
    if c.ChangeBy? {
      DeltaKeepsState(p, c.delta, c.now, q);
    }
  }

  /** Over every run, in every state. */
  lemma {:induction false} RunStateOk(plans: seq<Plan>, i: nat)
    requires IsRun(plans) && i < |plans|
    ensures StateOk(plans[i])
  {
    hide StateOk, Step, Initial;
    if i == 0 {
      InitialOk(plans[0]);
    } else {
      RunStateOk(plans, i - 1);
      assert Next(plans[i - 1], plans[i]);
      var c :| Step(plans[i - 1], c) == Ok(plans[i]);
      StepOk(plans[i - 1], c, plans[i]);
    }
  }

  /** Over every run, between any two states: revisions grow, knowledge is append-only, confirmations are write-once
      and the grounded one freezes what it confirmed. */
  lemma {:induction false} RunEvolves(plans: seq<Plan>, i: nat, j: nat)
    requires IsRun(plans) && i <= j < |plans|
    ensures Evolves(plans[i], plans[j])
    decreases j
  {
    hide StateOk, Step, Initial, Evolves;
    if i == j {
      EvolvesRefl(plans[i]);
    } else {
      RunEvolves(plans, i, j - 1);
      RunStateOk(plans, j - 1);
      assert Next(plans[j - 1], plans[j]);
      var c :| Step(plans[j - 1], c) == Ok(plans[j]);
      StepOk(plans[j - 1], c, plans[j]);
      EvolvesTrans(plans[i], plans[j - 1], plans[j]);
    }
  }

  lemma EvolvesRefl(p: Plan)
    ensures Evolves(p, p)
  {
    GrowsRefl(p.knowledge);
  }

  /** Each step makes the next revision; only publishing an already published plan again leaves it as it is. */
  lemma RunCountsRevisions(plans: seq<Plan>, i: nat)
    requires IsRun(plans) && i + 1 < |plans|
    ensures if plans[i + 1] == plans[i] then plans[i].publication.Some?
      else plans[i + 1].revision == plans[i].revision + 1
  {
    hide StateOk, PlanOk, Step, Initial, Evolves;
    RunStateOk(plans, i);
    assert Next(plans[i], plans[i + 1]);
    var c :| Step(plans[i], c) == Ok(plans[i + 1]);
    StepOk(plans[i], c, plans[i + 1]);
    if plans[i + 1] == plans[i] {
      SameOnlyIfPublished(plans[i], c);
    }
  }

  lemma SameOnlyIfPublished(p: Plan, c: Command)
    requires Step(p, c) == Ok(p)
    ensures p.publication.Some?
  {
    hide PlanOk, ApplyOperations;
  }

  /** As long as an open blocking decision of some state has not been superseded, no state since then has a grounded
      stabilization. */
  lemma OpenDecisionHoldsGrounding(plans: seq<Plan>, i: nat, k: nat, j: nat, n: nat)
    requires IsRun(plans) && i <= k <= j < |plans|
    requires ActiveAt(plans[i].knowledge, Decisions, n) && Blocks(plans[i].knowledge[Decisions][n])
    requires ActiveAt(plans[j].knowledge, Decisions, n)
    ensures plans[k].groundedPlan.None? && plans[k].publication.None?
    ensures ActiveAt(plans[k].knowledge, Decisions, n)
    ensures plans[k].knowledge[Decisions][n] == plans[i].knowledge[Decisions][n]
  {
    hide IsRun, DecompositionOk, IsGrounded, DeriveState;
    RunEvolves(plans, i, k);
    RunEvolves(plans, k, j);
    assert Later(plans[i].knowledge[Decisions][n], plans[k].knowledge[Decisions][n]);
    assert Later(plans[k].knowledge[Decisions][n], plans[j].knowledge[Decisions][n]);
    RunStateOk(plans, k);
    assert Blocked(plans[k].knowledge);
  }

  // The next action a plan names is the one that works.

  /** A sound plan says "stabilize intent", "stabilize the grounded plan" or "publish" exactly when that very
      operation, called with the plan's own fingerprint, makes a new revision. */
  lemma NextActionWorks(p: Plan, actorId: Id, fingerprint: string, publication: Publication, now: int)
    requires PlanOk(p) && Identifier(actorId)
    ensures NextAction(p).StabilizeIntent? <==> StabilizeIntentOf(p, actorId, fingerprint, fingerprint, now).Ok?
    ensures NextAction(p).StabilizeGroundedPlan? <==> StabilizeGroundedOf(p, actorId, fingerprint, fingerprint, now).Ok?
    ensures NextAction(p).PublishPlan? <==>
      MarkPublished(p, publication, now).Ok? && MarkPublished(p, publication, now).value.revision == p.revision + 1
  {
    hide KnowledgeOk, DecompositionOk, DeriveState, HasProductSubstance, Blocked, FactKind;
    assert p.publication.Some? ==> p.groundedPlan.Some?;
    assert p.groundedPlan.Some? ==> p.intent.Some?;
  }

  // Publishing.

  /** Publishing succeeds exactly on a stabilized plan that is not published under another fingerprint. The first time
      makes the next revision, which records the publication and keeps everything confirmed and known; publishing that
      again under its fingerprint leaves it as it is, and under any other fingerprint it never succeeds. */
  lemma PublicationLaw(p: Plan, publication: Publication, again: Publication, now: int, later: int)
    requires PlanOk(p)
    ensures var r := MarkPublished(p, publication, now);
      && (r.Ok? <==>
        && p.groundedPlan.Some?
        && (p.publication.Some? ==> p.publication.value.fingerprint == publication.fingerprint))
      && (r.Ok? && p.publication.Some? ==> r.value == p)
      && (r.Ok? && p.publication.None? ==>
        && r.value.publication == Some(publication) && r.value.updatedAt == now
        && r.value.revision == p.revision + 1 && r.value.previousRevision == Some(p.revision)
        && r.value.intent == p.intent && r.value.groundedPlan == p.groundedPlan
        && r.value.knowledge == p.knowledge && r.value.decomposition == p.decomposition
        && r.value.derived.nextAction.FramingComplete?)
      && (r.Ok? ==>
        var fingerprint := r.value.publication.value.fingerprint;
        MarkPublished(r.value, again, later) == (if again.fingerprint == fingerprint then r else Err(AlreadyPublished)))
  {
    hide KnowledgeOk, DecompositionOk;
  }

  // Superseding keeps the plan's dependencies alive.

  lemma CascadeAt(k: Knowledge, seeds: set<Id>, heir: Id, revision: nat, s: Section, i: nat)
    requires s in k && i < |k[s]|
    ensures var after := Cascaded(k, seeds, heir, revision);
      s in after && i < |after[s]| && after[s][i] == CascadedItem(k, seeds, k[s][i], heir, revision)
  {
  }

  /** A superseded item records by what and in which revision, and keeps everything else. */
  predicate RecordedAs(before: Item, after: Item, heir: Id, revision: nat) {
    && before.active && !after.active
    && after.supersededBy == Some(heir) && after.supersededInRevision == Some(revision)
    && after.id == before.id && after.statement == before.statement && after.provenance == before.provenance
    && after.introducedInRevision == before.introducedInRevision && after.dependsOn == before.dependsOn
    && after.blocksProgress == before.blocksProgress
  }

  /** Whatever a supersession retires, the named item or what depends on it, records the heir and the revision; the rest
      stays as it is. */
  lemma SupersedeRecords(k: Knowledge, s: Section, id: Id, heir: Id, revision: nat, t: Section, i: nat)
    requires Supersede(k, s, id, heir, revision).Ok? && t in k && i < |k[t]|
    ensures var after := Supersede(k, s, id, heir, revision).value;
      && t in after && |after[t]| == |k[t]|
      && (after[t][i] == k[t][i] || RecordedAs(k[t][i], after[t][i], heir, revision))
      && (t == s && k[t][i].active && k[t][i].id == id ==> RecordedAs(k[t][i], after[t][i], heir, revision))
  {
    hide Invalid;
    FoundSection(k, s, id);
    CascadeAt(k[s := Retired(At(k, s), id, heir, revision)], {id}, heir, revision, t, i);
  }

  /** An upsert that changes something appends its item, active and trimmed, and retires the one it replaces in its own
      name; the rest stays as it is. */
  lemma UpsertRecords(k: Knowledge, s: Section, input: ItemInput, revision: nat, i: nat)
    requires Upsert(k, s, input, revision).Ok? && Upsert(k, s, input, revision).value != k && s in k && i < |k[s]|
    ensures var after := Upsert(k, s, input, revision).value;
      && after == k[s := after[s]] && |after[s]| == |k[s]| + 1
      && (if k[s][i].active && k[s][i].id == input.id then RecordedAs(k[s][i], after[s][i], input.id, revision)
          else after[s][i] == k[s][i])
      && after[s][|k[s]|] == Item(input.id, Trim(input.statement), input.provenance, true, revision, None, None,
           input.blocksProgress, input.dependsOn)
  {
    hide Trim, ValidItem, FindActive;
  }

  /** With unambiguous active ids, what is left active after a supersession depends on active knowledge only. */
  lemma SupersedeKeepsDependencies(k: Knowledge, s: Section, id: Id, heir: Id, revision: nat)
    requires UniqueActive(k) && DependenciesActive(k) && Supersede(k, s, id, heir, revision).Ok?
    ensures UniqueActive(Supersede(k, s, id, heir, revision).value)
    ensures DependenciesActive(Supersede(k, s, id, heir, revision).value)
  {
    hide Cascaded, Affected, UniqueActive, DependenciesActive;
    var marked := k[s := Retired(At(k, s), id, heir, revision)];
    FoundSection(k, s, id);
    var after := Cascaded(marked, {id}, heir, revision);
    StillUnique(k, after, s, id, heir, revision);
    forall t, i | ActiveAt(after, t, i)
      ensures forall d :: d in Deps(after[t][i]) ==> ActiveId(after, d)
    {
      ActiveWasActive(k, s, id, heir, revision, t, i);
      forall d | d in Deps(after[t][i])
        ensures ActiveId(after, d)
      {
        DependencySurvives(k, s, id, heir, revision, t, i, d);
      }
    }
    assert DependenciesActive(after) by {
      DependenciesActiveIntro(after);
    }
  }

  lemma DependenciesActiveIntro(k: Knowledge)
    requires forall t, i :: ActiveAt(k, t, i) ==> forall d :: d in Deps(k[t][i]) ==> ActiveId(k, d)
    ensures DependenciesActive(k)
  {
  }

  lemma {:induction false} FoundIn(items: seq<Item>, id: Id)
    ensures FindActive(items, id).Some? <==> exists i :: 0 <= i < |items| && items[i].active && items[i].id == id
  {
    if items != [] {
      FoundIn(items[1..], id);
      if i :| 0 <= i < |items| && items[i].active && items[i].id == id {
        assert i > 0 ==> items[1..][i - 1] == items[i];
      }
      if i :| 0 <= i < |items[1..]| && items[1..][i].active && items[1..][i].id == id {
        assert items[i + 1] == items[1..][i];
      }
    }
  }

  lemma FoundSection(k: Knowledge, s: Section, id: Id)
    requires FindActive(At(k, s), id).Some?
    ensures s in k && exists i :: ActiveAt(k, s, i) && k[s][i].id == id
  {
    FoundIn(At(k, s), id);
    var i :| 0 <= i < |At(k, s)| && At(k, s)[i].active && At(k, s)[i].id == id;
    assert ActiveAt(k, s, i);
  }

  /** An item active after the supersession was active before it, unmarked and unaffected, and is unchanged. */
  lemma ActiveWasActive(k: Knowledge, s: Section, id: Id, heir: Id, revision: nat, t: Section, i: int)
    requires s in k
    requires ActiveAt(Cascaded(k[s := Retired(At(k, s), id, heir, revision)], {id}, heir, revision), t, i)
    ensures var marked := k[s := Retired(At(k, s), id, heir, revision)];
      && ActiveAt(k, t, i) && ActiveAt(marked, t, i)
      && marked[t][i] == k[t][i] && Cascaded(marked, {id}, heir, revision)[t][i] == k[t][i]
      && !Affected(marked, {id}, k[t][i])
      && !(t == s && k[t][i].id == id)
  {
    hide Affected;
    var marked := k[s := Retired(At(k, s), id, heir, revision)];
    CascadeAt(marked, {id}, heir, revision, t, i);
  }

  lemma StillUnique(k: Knowledge, after: Knowledge, s: Section, id: Id, heir: Id, revision: nat)
    requires s in k && UniqueActive(k)
    requires after == Cascaded(k[s := Retired(At(k, s), id, heir, revision)], {id}, heir, revision)
    ensures UniqueActive(after)
  {
    hide Cascaded, Affected, Retired;
    forall t, i, u, j | ActiveAt(after, t, i) && ActiveAt(after, u, j) && after[t][i].id == after[u][j].id
      ensures t == u && i == j
    {
      ActiveWasActive(k, s, id, heir, revision, t, i);
      ActiveWasActive(k, s, id, heir, revision, u, j);
    }
  }

  lemma InvalidAffects(k: Knowledge, seeds: set<Id>, item: Item, d: Id)
    requires item.active && d in Deps(item) && Invalid(k, seeds, d)
    ensures Affected(k, seeds, item)
  {
  }

  lemma DependencySurvives(k: Knowledge, s: Section, id: Id, heir: Id, revision: nat, t: Section, i: int, d: Id)
    requires UniqueActive(k) && DependenciesActive(k) && s in k
    requires var after := Cascaded(k[s := Retired(At(k, s), id, heir, revision)], {id}, heir, revision);
      ActiveAt(after, t, i) && d in Deps(after[t][i])
    ensures ActiveId(Cascaded(k[s := Retired(At(k, s), id, heir, revision)], {id}, heir, revision), d)
  {
    var marked := k[s := Retired(At(k, s), id, heir, revision)];
    var after := Cascaded(marked, {id}, heir, revision);
    ActiveWasActive(k, s, id, heir, revision, t, i);
    var item := k[t][i];
    hide Cascaded, UniqueActive;
    assert d in Deps(item) && ActiveAt(k, t, i);
    assert ActiveId(k, d);
    var u, j :| ActiveAt(k, u, j) && k[u][j].id == d;
    if d == id {
      SeedIsInvalid(marked, {id}, d);
      InvalidAffects(marked, {id}, item, d);
      assert false;
    }
    assert marked[u][j] == k[u][j];
    CascadeAt(marked, {id}, heir, revision, u, j);
    if Affected(marked, {id}, k[u][j]) {
      assert marked[u][j] in marked[u];
      assert Holds(marked, k[u][j]);
      AffectedIsInvalid(marked, {id}, k[u][j]);
      InvalidAffects(marked, {id}, item, d);
      assert false;
    }
    assert ActiveAt(after, u, j);
  }

}
