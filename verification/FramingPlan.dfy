/** The framing plan: a revisioned document, its derived state, and the operations that make the next revision. */
module FramingPlan {
  import opened Wrappers
  import opened FramingKnowledge
  import opened Texts
  import DependencyGraph
  import Scopes
  import Sorting

  datatype RepositoryNature = Empty | Skeleton | Implemented | Indeterminate

  datatype Probe = Probe(projectId: Id, nature: RepositoryNature, workspaceFingerprint: string,
        inventoryFingerprint: string)

  datatype Target = ProjectTarget(projectId: Id, framingId: Id) | FeatureTarget(projectId: Id, framingId: Id)

  /** A Feature candidate or a Lot: id, entries it depends on and texts; a Lot also has scopes and proofs. */
  datatype Entry = Entry(
    id: Id, dependsOn: seq<Id>, texts: seq<string>, readScopes: seq<string>, writeScopes: seq<string>,
    proofs: seq<string>)

  datatype Decomposition = ProjectFeatures(features: seq<Entry>) | FeatureLots(lots: seq<Entry>)

  datatype Stabilization = Stabilization(revision: nat, fingerprint: string, actorId: Id, confirmedAt: int)

  datatype Publication = Publication(revision: nat, fingerprint: string, relativePath: string, publishedAt: int)

  datatype ProductClarity = Emerging | Stabilized

  datatype Grounding = NotApplicable | Pending | InProgress | Complete | DegradedGrounding

  datatype Authority = Conversational | IntentStabilized | Grounded | Consumable | Degraded

  datatype Pipeline = Essential | Full

  datatype Action =
    | FramingComplete | PublishPlan | StabilizeIntent | ContinueConversation | ResolveSubstance | RecoverRepositoryProbe
    | DesignGreenfield | ReadConstraints | ReadCodeBlind | PrepareDecomposition | StabilizeGroundedPlan

  datatype DerivedState = DerivedState(
    repositoryNature: RepositoryNature, productClarity: ProductClarity, grounding: Grounding,
    planAuthority: Authority, recommendedPipeline: Option<Pipeline>, nextAction: Action)

  datatype Plan = Plan(
    id: Id, target: Target, revision: nat, previousRevision: Option<nat>, knowledge: Knowledge, probe: Probe,
    decomposition: Option<Decomposition>, intent: Option<Stabilization>, groundedPlan: Option<Stabilization>,
    publication: Option<Publication>, derived: DerivedState, createdAt: int, updatedAt: int)

  datatype Operation =
    | UpsertKnowledge(section: Section, value: ItemInput)
    | SupersedeKnowledge(section: Section, id: Id, heir: Id)
    | RecordProbe(probe: Probe)
    | InvalidateEvidence(id: Id, heir: Id)
    | ProposeDecomposition(decomposition: Decomposition)

  datatype Delta = Delta(planId: Id, baseRevision: nat, operations: seq<Operation>, reason: string)

  const MAXIMUM_OPERATIONS := 128

  datatype FramingError =
    | InvalidPlan | PlanClosed | WrongPlan | RevisionConflict | InvalidDelta | InvalidKnowledge | KnowledgeNotFound
    | InvalidProbe | InvalidDecomposition | FingerprintChanged | AlreadyStabilized | NoProductSubstance | IntentMissing
    | InvalidActor | NotGrounded | NotStabilized | AlreadyPublished

  // Reading the knowledge.

  function At(k: Knowledge, s: Section): seq<Item> {
    if s in k then k[s] else []
  }

  predicate AnyActive(k: Knowledge, s: Section) {
    exists item :: item in At(k, s) && item.active
  }

  predicate Blocks(item: Item) {
    item.active && item.provenance.kind.Open? && item.blocksProgress == Some(true)
  }

  /** Some open decision stands in the way. */
  predicate Blocked(k: Knowledge) {
    exists item :: item in At(k, Decisions) && Blocks(item)
  }

  predicate HasProductSubstance(k: Knowledge) {
    AnyActive(k, IntentProblem) && AnyActive(k, IntentDesiredEffects) && AnyActive(k, IntentExactObjective)
  }

  predicate FactKind(kind: ProvenanceKind) {
    kind.SourceFact? || kind.InventoryFact?
  }

  predicate IsGrounded(p: Plan) {
    && p.intent.Some? && !p.probe.nature.Indeterminate?
    && if p.probe.nature.Empty? then
         exists item :: item in At(p.knowledge, SolutionDesign) && item.active && item.provenance.kind.TechnicalDesign?
       else
         && AnyActive(p.knowledge, SolutionDesign)
         && exists item :: item in At(p.knowledge, EvidenceClaims) && item.active && FactKind(item.provenance.kind)
              && item.provenance.snapshotFingerprint == Some(p.probe.workspaceFingerprint)
  }

  predicate CanStabilizeGroundedPlan(p: Plan) {
    IsGrounded(p) && p.decomposition.Some? && !Blocked(p.knowledge)
  }

  function RecommendedPipeline(p: Plan): Option<Pipeline> {
    if !p.target.FeatureTarget? || p.decomposition.None? || !p.decomposition.value.FeatureLots? then None
    else if AnyActive(p.knowledge, SolutionRisks) || |p.decomposition.value.lots| >= 4 then Some(Full)
    else Some(Essential)
  }

  function NextAction(p: Plan): Action {
    if p.publication.Some? then FramingComplete
    else if p.groundedPlan.Some? then PublishPlan
    else if p.intent.None? then (if HasProductSubstance(p.knowledge) then StabilizeIntent else ContinueConversation)
    else if Blocked(p.knowledge) then ResolveSubstance
    else if !IsGrounded(p) then
      match p.probe.nature
      case Indeterminate => RecoverRepositoryProbe
      case Empty => DesignGreenfield
      case Skeleton => ReadConstraints
      case Implemented => ReadCodeBlind
    else if p.decomposition.None? then PrepareDecomposition
    else StabilizeGroundedPlan
  }

  function DeriveState(p: Plan): DerivedState {
    var nature := p.probe.nature;
    var grounding :=
      if nature.Empty? && p.intent.None? then NotApplicable
      else if p.intent.None? then Pending
      else if IsGrounded(p) then Complete
      else if nature.Indeterminate? then DegradedGrounding
      else InProgress;
    var authority :=
      if nature.Indeterminate? && p.intent.Some? then Degraded
      else if p.groundedPlan.Some? then Consumable
      else if IsGrounded(p) then Grounded
      else if p.intent.Some? then IntentStabilized
      else Conversational;
    DerivedState(nature, if p.intent.None? then Emerging
      else Stabilized, grounding, authority, RecommendedPipeline(p), NextAction(p))
  }

  function WithDerivedState(p: Plan): Plan {
    p.(derived := DeriveState(p))
  }

  // Changing the knowledge.

  predicate AnchorOk(anchor: Anchor) {
    && !("/" <= anchor.path)
    && (forall part :: part in Scopes.Split(anchor.path, '/') ==> ".." !in Scopes.Split(part, '\\'))
    && (anchor.lineEnd.Some? ==> anchor.lineStart <= anchor.lineEnd.value)
  }

  /** What each kind of knowledge has to say about where it comes from. */
  predicate ProvenanceOk(provenance: Provenance) {
    var snapshot, inventory := provenance.snapshotFingerprint, provenance.inventoryFingerprint;
    && TextOk(provenance.reference, 512)
    && (FactKind(provenance.kind) ==> snapshot.Some? && IsHash(snapshot.value))
    && (provenance.kind.SourceFact? ==> provenance.anchor.Some? && AnchorOk(provenance.anchor.value))
    && (provenance.kind.InventoryFact? ==> inventory.Some? && IsHash(inventory.value))
  }

  predicate ValidItem(item: Item) {
    && Identifier(item.id) && TextOk(item.statement, 4000) && ProvenanceOk(item.provenance)
    && (if item.active then item.supersededInRevision.None? && item.supersededBy.None?
        else item.supersededInRevision.Some? && item.supersededBy.Some?)
    && forall d :: d in Deps(item) ==> Identifier(d)
  }

  function NewItem(input: ItemInput, revision: nat): Item {
    Item(input.id, Trim(input.statement), input.provenance, true, revision, None, None, input.blocksProgress,
      input.dependsOn)
  }

  function FindActive(items: seq<Item>, id: Id): Option<Item> {
    if items == [] then None
    else if items[0].active && items[0].id == id then Some(items[0])
    else FindActive(items[1..], id)
  }

  /** The section holds an active item with the id. */
  predicate ActiveKey(k: Knowledge, s: Section, id: Id) {
    FindActive(At(k, s), id).Some?
  }

  predicate SameContent(a: Item, b: Item) {
    a.statement == b.statement && a.provenance == b.provenance && a.blocksProgress == b.blocksProgress &&
      a.dependsOn == b.dependsOn
  }

  /** Every active item with the id is superseded. */
  function Retired(items: seq<Item>, id: Id, heir: Id, revision: nat): (r: seq<Item>)
    ensures |r| == |items|
  {
    seq(|items|, i requires 0 <= i < |items| =>
      if items[i].active && items[i].id == id then Superseded(items[i], heir, revision) else items[i])
  }

  function Upsert(k: Knowledge, s: Section, input: ItemInput, revision: nat): Result<Knowledge, FramingError> {
    var item := NewItem(input, revision);
    if !ValidItem(item) then Err(InvalidKnowledge)
    else
      var existing := FindActive(At(k, s), item.id);
      if existing.Some? && SameContent(existing.value, item) then Ok(k)
      else Ok(k[s := Retired(At(k, s), item.id, item.id, revision) + [item]])
  }

  ghost function Supersede(k: Knowledge, s: Section, id: Id, heir: Id, revision: nat): Result<Knowledge, FramingError> {
    if FindActive(At(k, s), id).None? then Err(KnowledgeNotFound)
    else Ok(Cascaded(k[s := Retired(At(k, s), id, heir, revision)], {id}, heir, revision))
  }

  // Checks.

  function EntriesOf(d: Decomposition): seq<Entry> {
    match d
    case ProjectFeatures(features) => features
    case FeatureLots(lots) => lots
  }

  function EntryGraph(entries: seq<Entry>): DependencyGraph.Graph {
    map id | id in EntryIds(entries) :: DependenciesOf(entries, id)
  }

  function EntryIds(entries: seq<Entry>): set<Id> {
    set e | e in entries :: e.id
  }

  /** The last entry with the id decides, as in a map built from pairs. */
  function DependenciesOf(entries: seq<Entry>, id: Id): seq<Id> {
    if entries == [] then []
    else if entries[|entries| - 1].id == id then entries[|entries| - 1].dependsOn
    else DependenciesOf(entries[..|entries| - 1], id)
  }

  predicate EntriesWellFormed(entries: seq<Entry>) {
    && 1 <= |entries| <= 100
    && (forall i, j :: 0 <= i < j < |entries| ==> entries[i].id != entries[j].id)
    && (forall e :: e in entries ==> forall d :: d in e.dependsOn ==> d in EntryIds(entries) && d != e.id)
  }

  predicate KindMatches(t: Target, d: Decomposition) {
    (t.ProjectTarget? ==> d.ProjectFeatures?) && (t.FeatureTarget? ==> d.FeatureLots?)
  }

  predicate EntryOk(e: Entry, lot: bool) {
    && Identifier(e.id) && (forall d :: d in e.dependsOn ==> Identifier(d))
    && (forall text :: text in e.texts ==> TextOk(text, 4000))
    && (lot ==> LotOk(e))
  }

  predicate LotOk(e: Entry) {
    && e.writeScopes != [] && (forall scope :: scope in e.readScopes + e.writeScopes ==> Scopes.SafeScope(scope))
    && e.proofs != [] && (forall proof :: proof in e.proofs ==> TextOk(proof, 4000))
  }

  predicate EntriesOk(d: Decomposition) {
    forall e :: e in EntriesOf(d) ==> EntryOk(e, d.FeatureLots?)
  }

  ghost predicate DecompositionOk(t: Target, d: Decomposition) {
    && KindMatches(t, d) && EntriesWellFormed(EntriesOf(d)) && EntriesOk(d)
    && DependencyGraph.Acyclic(EntryGraph(EntriesOf(d)))
  }

  predicate FingerprintsOk(probe: Probe) {
    IsHash(probe.inventoryFingerprint) && IsHash(probe.workspaceFingerprint)
  }

  predicate ProbeOk(probe: Probe, projectId: Id) {
    probe.projectId == projectId && FingerprintsOk(probe)
  }

  predicate TargetOk(target: Target) {
    Identifier(target.projectId) && Identifier(target.framingId)
  }

  predicate StabilizationOk(stabilization: Option<Stabilization>, revision: nat) {
    stabilization.Some? ==> stabilization.value.revision <= revision && IsHash(stabilization.value.fingerprint)
  }

  predicate PublicationOk(publication: Option<Publication>, revision: nat) {
    publication.Some? ==>
      && publication.value.revision < revision && IsHash(publication.value.fingerprint)
      && ".arka-norn/plans/" <= publication.value.relativePath
  }

  predicate RevisionsOk(item: Item, revision: nat) {
    item.introducedInRevision <= revision &&
      (item.supersededInRevision.Some? ==> item.supersededInRevision.value <= revision)
  }

  ghost predicate ActiveAt(k: Knowledge, s: Section, i: int) {
    s in k && 0 <= i < |k[s]| && k[s][i].active
  }

  ghost predicate UniqueActive(k: Knowledge) {
    forall s, i, t, j :: ActiveAt(k, s, i) && ActiveAt(k, t, j) && k[s][i].id == k[t][j].id ==> s == t && i == j
  }

  ghost predicate ActiveId(k: Knowledge, id: Id) {
    exists s, i :: ActiveAt(k, s, i) && k[s][i].id == id
  }

  ghost predicate DependenciesActive(k: Knowledge) {
    forall s, i :: ActiveAt(k, s, i) ==> forall d :: d in Deps(k[s][i]) ==> ActiveId(k, d)
  }

  predicate EvidenceCurrent(item: Item, probe: Probe) {
    && (FactKind(item.provenance.kind) ==> item.provenance.snapshotFingerprint == Some(probe.workspaceFingerprint))
    && (item.provenance.kind.InventoryFact? ==>
      item.provenance.inventoryFingerprint == Some(probe.inventoryFingerprint))
  }

  ghost predicate KnowledgeOk(k: Knowledge, probe: Probe, revision: nat) {
    && HasEverySection(k)
    && (forall s, i :: s in k && 0 <= i < |k[s]| ==> ValidItem(k[s][i]) && RevisionsOk(k[s][i], revision))
    && UniqueActive(k)
    && DependenciesActive(k)
    && (forall item :: item in At(k, EvidenceClaims) && item.active ==> EvidenceCurrent(item, probe))
  }

  /** The plan contract. */
  ghost predicate PlanOk(p: Plan) {
    && p.revision >= 1
    && p.previousRevision == (if p.revision == 1 then None else Some(p.revision - 1))
    && p.createdAt <= p.updatedAt
    && Identifier(p.id) && TargetOk(p.target)
    && ProbeOk(p.probe, p.target.projectId)
    && KnowledgeOk(p.knowledge, p.probe, p.revision)
    && (p.decomposition.Some? ==> DecompositionOk(p.target, p.decomposition.value))
    && StabilizationOk(p.intent, p.revision) && StabilizationOk(p.groundedPlan, p.revision)
    && (p.groundedPlan.Some? ==> p.intent.Some?)
    && (p.publication.Some? ==> p.groundedPlan.Some?) && PublicationOk(p.publication, p.revision)
    && p.derived == DeriveState(p)
  }

  // Operations.

  datatype Draft = Draft(knowledge: Knowledge, probe: Probe, decomposition: Option<Decomposition>)

  ghost function ApplyOperation(t: Target, w: Draft, op: Operation, revision: nat): Result<Draft, FramingError> {
    match op
    case UpsertKnowledge(s, value) =>
      (match Upsert(w.knowledge, s, value, revision) case Ok(k) => Ok(w.(knowledge := k)) case Err(e) => Err(e))
    case SupersedeKnowledge(s, id, heir) =>
      (match Supersede(w.knowledge, s, id, heir, revision) case Ok(k) => Ok(w.(knowledge := k)) case Err(e) => Err(e))
    case InvalidateEvidence(id, heir) =>
      (match Supersede(w.knowledge, EvidenceClaims, id, heir,
        revision) case Ok(k) => Ok(w.(knowledge := k)) case Err(e) => Err(e))
    case RecordProbe(probe) =>
      if ProbeOk(probe, t.projectId) then Ok(w.(probe := probe)) else Err(InvalidProbe)
    case ProposeDecomposition(d) =>
      if DecompositionOk(t, d) then Ok(w.(decomposition := Some(d))) else Err(InvalidDecomposition)
  }

  /** Operations apply from left to right; the first error throws. */
  ghost function ApplyOperations(t: Target, w: Draft, ops: seq<Operation>, revision: nat): Result<Draft, FramingError> {
    if ops == [] then Ok(w)
    else match ApplyOperations(t, w, ops[..|ops| - 1], revision)
      case Err(e) => Err(e)
      case Ok(before) => ApplyOperation(t, before, ops[|ops| - 1], revision)
  }

  // What a list of operations is made of.

  ghost predicate NoUpserts(ops: seq<Operation>) {
    forall op :: op in ops ==> !op.UpsertKnowledge?
  }

  ghost predicate UpsertsOnly(ops: seq<Operation>) {
    forall op :: op in ops ==> op.UpsertKnowledge?
  }

  predicate Supersedes(op: Operation) {
    op.SupersedeKnowledge? || op.InvalidateEvidence?
  }

  ghost function SupersededIds(ops: seq<Operation>): set<Id> {
    set op | op in ops && Supersedes(op) :: op.id
  }

  function DraftOf(p: Plan): Draft {
    Draft(p.knowledge, p.probe, p.decomposition)
  }

  function Advanced(p: Plan, now: int): Plan {
    p.(revision := p.revision + 1, previousRevision := Some(p.revision), updatedAt := now)
  }

  /** The form of one operation, whatever plan it meets. */
  predicate OperationOk(op: Operation) {
    match op
    case UpsertKnowledge(_, value) => InputOk(value)
    case SupersedeKnowledge(_, id, heir) => Identifier(id) && Identifier(heir)
    case InvalidateEvidence(id, heir) => Identifier(id) && Identifier(heir)
    case RecordProbe(probe) => Identifier(probe.projectId) && FingerprintsOk(probe)
    case ProposeDecomposition(d) =>
      forall e :: e in EntriesOf(d) ==> Identifier(e.id) && IdentifiersOnce(e.dependsOn)
  }

  predicate InputOk(value: ItemInput) {
    && Identifier(value.id) && TextOk(value.statement, 4000) && TextOk(value.provenance.reference, 512)
    && (value.dependsOn.Some? ==> IdentifiersOnce(value.dependsOn.value))
  }

  predicate IdentifiersOnce(ids: seq<Id>) {
    Sorting.NoRepeats(ids) && forall id :: id in ids ==> Identifier(id)
  }

  /** The form of a delta. */
  predicate DeltaOk(delta: Delta) {
    && Identifier(delta.planId) && delta.baseRevision >= 1 && TextOk(delta.reason, 512)
    && 1 <= |delta.operations| <= MAXIMUM_OPERATIONS
    && forall op :: op in delta.operations ==> OperationOk(op)
  }

  ghost function ApplyDelta(p: Plan, delta: Delta, now: int): Result<Plan, FramingError> {
    if !PlanOk(p) then Err(InvalidPlan)
    else if !DeltaOk(delta) then Err(InvalidDelta)
    else if p.publication.Some? || p.groundedPlan.Some? then Err(PlanClosed)
    else if delta.planId != p.id then Err(WrongPlan)
    else if delta.baseRevision != p.revision then Err(RevisionConflict)
    else match ApplyOperations(p.target, DraftOf(p), delta.operations, p.revision + 1)
      case Err(e) => Err(e)
      case Ok(w) => Ok(WithDerivedState(Advanced(p, now).(knowledge := w.knowledge, probe := w.probe,
        decomposition := w.decomposition)))
  }

  /** `actual` is the plan's own fingerprint. */
  ghost function StabilizeIntentOf(p: Plan, actorId: Id, actual: string, expected: string, now: int)
      : Result<Plan, FramingError> {
    if !PlanOk(p) then Err(InvalidPlan)
    else if !Identifier(actorId) then Err(InvalidActor)
    else if actual != expected then Err(FingerprintChanged)
    else if p.intent.Some? then Err(AlreadyStabilized)
    else if !HasProductSubstance(p.knowledge) then Err(NoProductSubstance)
    else Ok(WithDerivedState(Advanced(p, now).(intent := Some(Stabilization(p.revision, actual, actorId, now)))))
  }

  ghost function StabilizeGroundedOf(p: Plan, actorId: Id, actual: string, expected: string, now: int)
      : Result<Plan, FramingError> {
    if !PlanOk(p) then Err(InvalidPlan)
    else if !Identifier(actorId) then Err(InvalidActor)
    else if actual != expected then Err(FingerprintChanged)
    else if p.intent.None? then Err(IntentMissing)
    else if p.groundedPlan.Some? then Err(AlreadyStabilized)
    else if !CanStabilizeGroundedPlan(p) then Err(NotGrounded)
    else Ok(WithDerivedState(Advanced(p, now).(groundedPlan := Some(Stabilization(p.revision, actual, actorId, now)))))
  }

  function MarkPublished(p: Plan, publication: Publication, now: int): Result<Plan, FramingError> {
    if p.groundedPlan.None? then Err(NotStabilized)
    else if p.publication.Some? then
      (if p.publication.value.fingerprint == publication.fingerprint then Ok(p) else Err(AlreadyPublished))
    else Ok(WithDerivedState(Advanced(p, now).(publication := Some(publication))))
  }

  function EmptyKnowledge(): (k: Knowledge)
    ensures HasEverySection(k)
  {
    map s | s in SECTIONS :: []
  }

  function CreatePlan(id: Id, target: Target, probe: Probe, now: int): Plan {
    WithDerivedState(Plan(id, target, 1, None, EmptyKnowledge(), probe, None, None, None, None,
      DerivedState(probe.nature, Emerging, Pending, Conversational, None, ContinueConversation), now, now))
  }

}
