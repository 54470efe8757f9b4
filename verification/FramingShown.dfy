/** What a plan shows of itself, read off its knowledge, its probe and its confirmations. */
module FramingShown {
  import opened Wrappers
  import opened FramingKnowledge
  import opened FramingPlan
  import opened FramingRun
  import opened FramingService

  /** Something active stands in the section. */
  ghost predicate Present(k: Knowledge, s: Section) {
    exists i :: ActiveAt(k, s, i)
  }

  /** The problem, an effect and the objective are all explicit. */
  ghost predicate Substance(k: Knowledge) {
    Present(k, IntentProblem) && Present(k, IntentDesiredEffects) && Present(k, IntentExactObjective)
  }

  /** A decision that is open and blocks. */
  ghost predicate OpenDecision(k: Knowledge) {
    exists i :: ActiveAt(k, Decisions, i) && k[Decisions][i].provenance.kind.Open? &&
      k[Decisions][i].blocksProgress == Some(true)
  }

  /** A technical design. */
  ghost predicate Designed(k: Knowledge) {
    exists i :: ActiveAt(k, SolutionDesign, i) && k[SolutionDesign][i].provenance.kind.TechnicalDesign?
  }

  /** A fact from the very snapshot that was probed. */
  ghost predicate Evidenced(k: Knowledge, probe: Probe) {
    exists i :: ActiveAt(k, EvidenceClaims, i) && FromSnapshot(k[EvidenceClaims][i], probe)
  }

  predicate FromSnapshot(item: Item, probe: Probe) {
    && (item.provenance.kind.SourceFact? || item.provenance.kind.InventoryFact?)
    && item.provenance.snapshotFingerprint == Some(probe.workspaceFingerprint)
  }

  /** What the repository asks for has been supplied: on an empty one a technical design, on one that can be read a
      design and a fact. */
  ghost predicate Supplied(k: Knowledge, probe: Probe) {
    match probe.nature
    case Indeterminate => false
    case Empty => Designed(k)
    case Skeleton => Present(k, SolutionDesign) && Evidenced(k, probe)
    case Implemented => Present(k, SolutionDesign) && Evidenced(k, probe)
  }

  lemma ActiveIsPresent(k: Knowledge, s: Section)
    ensures AnyActive(k, s) <==> Present(k, s)
  {
    if item :| item in At(k, s) && item.active {
      var i :| 0 <= i < |k[s]| && k[s][i] == item;
      assert ActiveAt(k, s, i);
    }
  }

  lemma BlockedByDecision(k: Knowledge)
    ensures Blocked(k) <==> OpenDecision(k)
  {
    if item :| item in At(k, Decisions) && Blocks(item) {
      var i :| 0 <= i < |k[Decisions]| && k[Decisions][i] == item;
      assert ActiveAt(k, Decisions, i);
    }
    if i :| ActiveAt(k, Decisions, i) && Blocks(k[Decisions][i]) {
      assert k[Decisions][i] in At(k, Decisions);
    }
  }

  lemma GroundedIsSupplied(p: Plan)
    ensures IsGrounded(p) <==> p.intent.Some? && Supplied(p.knowledge, p.probe)
  {
    ActiveIsPresent(p.knowledge, SolutionDesign);
    var k := p.knowledge;
    if p.probe.nature.Empty? {
      if item :| item in At(k, SolutionDesign) && item.active && item.provenance.kind.TechnicalDesign? {
        var i :| 0 <= i < |k[SolutionDesign]| && k[SolutionDesign][i] == item;
        assert ActiveAt(k, SolutionDesign, i);
      }
      if i :| ActiveAt(k, SolutionDesign, i) && k[SolutionDesign][i].provenance.kind.TechnicalDesign? {
        assert k[SolutionDesign][i] in At(k, SolutionDesign);
      }
    } else {
      if item :| item in At(k, EvidenceClaims) && item.active && FromSnapshot(item, p.probe) {
        var i :| 0 <= i < |k[EvidenceClaims]| && k[EvidenceClaims][i] == item;
        assert ActiveAt(k, EvidenceClaims, i);
      }
      if i :| ActiveAt(k, EvidenceClaims, i) && FromSnapshot(k[EvidenceClaims][i], p.probe) {
        assert k[EvidenceClaims][i] in At(k, EvidenceClaims);
      }
    }
  }

  /** Confirmed as to its intent, and still to be grounded. */
  predicate BeingGrounded(p: Plan) {
    p.intent.Some? && p.groundedPlan.None?
  }

  /** In every state of every run, the action that is shown tells exactly where the plan stands. */
  lemma ActionShown(plans: seq<Plan>, i: nat)
    requires IsRun(plans) && i < |plans|
    ensures var p, action := plans[i], plans[i].derived.nextAction;
      var k, nature, free := p.knowledge, p.probe.nature, BeingGrounded(p) && !OpenDecision(p.knowledge);
      && (action.FramingComplete? <==> p.publication.Some?)
      && (action.PublishPlan? <==> p.groundedPlan.Some? && p.publication.None?)
      && (action.StabilizeIntent? <==> p.intent.None? && Substance(k))
      && (action.ContinueConversation? <==> p.intent.None? && !Substance(k))
      && (action.ResolveSubstance? <==> BeingGrounded(p) && OpenDecision(k))
      && (action.RecoverRepositoryProbe? <==> free && nature.Indeterminate?)
      && (action.DesignGreenfield? <==> free && nature.Empty? && !Designed(k))
      && (action.ReadConstraints? <==>
           free && nature.Skeleton? && !(Present(k, SolutionDesign) && Evidenced(k, p.probe)))
      && (action.ReadCodeBlind? <==>
           free && nature.Implemented? && !(Present(k, SolutionDesign) && Evidenced(k, p.probe)))
      && (action.PrepareDecomposition? <==> free && Supplied(k, p.probe) && p.decomposition.None?)
      && (action.StabilizeGroundedPlan? <==> free && Supplied(k, p.probe) && p.decomposition.Some?)
  {
    hide IsRun, Designed, Evidenced, Present, OpenDecision, IsGrounded, Blocked, AnyActive, DecompositionOk,
      RecommendedPipeline;
    var p := plans[i];
    RunStateOk(plans, i);
    GroundedIsSupplied(p);
    BlockedByDecision(p.knowledge);
    ActiveIsPresent(p.knowledge, IntentProblem);
    ActiveIsPresent(p.knowledge, IntentDesiredEffects);
    ActiveIsPresent(p.knowledge, IntentExactObjective);
  }

  /** So does the rest of the derived state: nature and clarity, grounding, and authority. */
  lemma StateShown(plans: seq<Plan>, i: nat)
    requires IsRun(plans) && i < |plans|
    ensures var p, d := plans[i], plans[i].derived;
      var nature, supplied := p.probe.nature, Supplied(p.knowledge, p.probe);
      && d.repositoryNature == nature
      && (d.productClarity.Stabilized? <==> p.intent.Some?)
      && (d.grounding.NotApplicable? <==> p.intent.None? && nature.Empty?)
      && (d.grounding.Pending? <==> p.intent.None? && !nature.Empty?)
      && (d.grounding.Complete? <==> p.intent.Some? && supplied)
      && (d.grounding.DegradedGrounding? <==> p.intent.Some? && nature.Indeterminate?)
      && (d.grounding.InProgress? <==> p.intent.Some? && !nature.Indeterminate? && !supplied)
      && (d.planAuthority.Conversational? <==> p.intent.None?)
      && (d.planAuthority.IntentStabilized? <==> p.intent.Some? && !nature.Indeterminate? && !supplied)
      && (d.planAuthority.Degraded? <==> p.intent.Some? && nature.Indeterminate?)
      && (d.planAuthority.Grounded? <==> BeingGrounded(p) && supplied)
      && (d.planAuthority.Consumable? <==> p.groundedPlan.Some?)
  {
    hide IsRun, Designed, Evidenced, Present, IsGrounded, Blocked, DecompositionOk, RecommendedPipeline, NextAction;
    RunStateOk(plans, i);
    GroundedIsSupplied(plans[i]);
  }

  /** In every plan a journal holds, what is active rests on what is active: an active item under an id has every
      dependency active in some section, is the only active one of its id, and if it is a fact in evidence it was read
      from the very snapshot, and for an inventory fact from the very inventory, that the plan's probe shows. */
  lemma EvidenceShown(plans: seq<Plan>, i: nat, s: Section, j: nat)
    requires Stored(plans) && i < |plans| && ActiveAt(plans[i].knowledge, s, j)
    ensures var p, item := plans[i], plans[i].knowledge[s][j];
      var kind, made := item.provenance.kind, item.provenance;
      && (forall d :: d in Deps(item) ==> exists r, n :: ActiveAt(p.knowledge, r, n) && p.knowledge[r][n].id == d)
      && (forall r, n :: ActiveAt(p.knowledge, r, n) && p.knowledge[r][n].id == item.id ==> r == s && n == j)
      && (s.EvidenceClaims? && (kind.SourceFact? || kind.InventoryFact?) ==>
        made.snapshotFingerprint == Some(p.probe.workspaceFingerprint))
      && (s.EvidenceClaims? && kind.InventoryFact? ==> made.inventoryFingerprint == Some(p.probe.inventoryFingerprint))
  {
    hide DecompositionOk, DeriveState, ValidItem, RevisionsOk;
    var p, item := plans[i], plans[i].knowledge[s][j];
    forall d | d in Deps(item)
      ensures exists r, n :: ActiveAt(p.knowledge, r, n) && p.knowledge[r][n].id == d
    {
      assert ActiveId(p.knowledge, d);
    }
  }

  /** A delivery pipeline is recommended exactly for a feature with lots: the full one if a risk is active or there are
      four lots or more. */
  lemma PipelineShown(plans: seq<Plan>, i: nat)
    requires IsRun(plans) && i < |plans|
    ensures var p, d := plans[i], plans[i].decomposition;
      && (d.Some? && p.target.FeatureTarget? ==> d.value.FeatureLots?)
      && (p.derived.recommendedPipeline == None <==> p.target.ProjectTarget? || d.None?)
      && (p.derived.recommendedPipeline == Some(Full) <==>
           p.target.FeatureTarget? && d.Some? && (Present(p.knowledge, SolutionRisks) || |d.value.lots| >= 4))
      && (p.derived.recommendedPipeline == Some(Essential) <==>
           p.target.FeatureTarget? && d.Some? && !Present(p.knowledge, SolutionRisks) && |d.value.lots| <= 3)
  {
    hide IsRun, Present, IsGrounded, Blocked, NextAction, AnyActive, EntriesOk, EntriesWellFormed;
    RunStateOk(plans, i);
    ActiveIsPresent(plans[i].knowledge, SolutionRisks);
  }

}
