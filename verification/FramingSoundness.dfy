/** When the plan a delta produces meets the plan contract. The operation checks the contract of its input only. */
module FramingSoundness {
  import opened Wrappers
  import opened FramingKnowledge
  import opened FramingPlan
  import opened Texts
  import opened FramingRun
  import opened FramingSupersession
  import opened FramingViews

  /** The part of the knowledge contract that does not look at the probe. */
  ghost predicate Sound(k: Knowledge, revision: nat) {
    && HasEverySection(k)
    && ItemsOk(k, revision)
    && UniqueActive(k)
    && DependenciesActive(k)
  }

  ghost predicate ItemsOk(k: Knowledge, revision: nat) {
    forall s, i :: s in k && 0 <= i < |k[s]| ==> ValidItem(k[s][i]) && RevisionsOk(k[s][i], revision)
  }

  lemma KnowledgeOkParts(k: Knowledge, probe: Probe, revision: nat)
    ensures KnowledgeOk(k, probe, revision) <==> Sound(k, revision) && EvidenceIsCurrent(k, probe)
  {
  }

  lemma SoundLater(k: Knowledge, revision: nat, later: nat)
    requires Sound(k, revision) && revision <= later
    ensures Sound(k, later)
  {
    hide UniqueActive, DependenciesActive, ValidItem;
  }

  lemma SupersededStaysValid(item: Item, heir: Id, revision: nat)
    requires ValidItem(item) && RevisionsOk(item, revision)
    ensures ValidItem(Superseded(item, heir, revision)) && RevisionsOk(Superseded(item, heir, revision), revision)
  {
    hide Trim;
  }

  /** The parts of the contract an applied delta always keeps; what is left are the clock, the knowledge and the
      evidence. */
  lemma OutputSound(p: Plan, delta: Delta, now: int, q: Plan)
    requires ApplyDelta(p, delta, now) == Ok(q)
    ensures PlanOk(q) <==>
      p.createdAt <= now && ProbeOk(q.probe, p.target.projectId) && Sound(q.knowledge, q.revision) &&
        EvidenceIsCurrent(q.knowledge, q.probe)
    ensures Sound(p.knowledge, q.revision)
  {
    hide DecompositionOk, ApplyOperations, KnowledgeGrows, HasEverySection, IsGrounded, RecommendedPipeline,
      NextAction, Sound, KnowledgeOk, EvidenceIsCurrent;
    KnowledgeOkParts(p.knowledge, p.probe, p.revision);
    SoundLater(p.knowledge, p.revision, q.revision);
    KnowledgeOkParts(q.knowledge, q.probe, q.revision);
    SoundHasSections(p.knowledge, p.revision);
    OperationsKeepDraft(p.target, DraftOf(p), delta.operations, p.revision + 1);
    DerivedIgnoresCache(q.(derived := p.derived), q.derived);
  }

  lemma SoundHasSections(k: Knowledge, revision: nat)
    requires Sound(k, revision)
    ensures HasEverySection(k)
  {
  }

  // In closed form, where no supersession follows an upsert: what such a delta writes and supersedes.

  /** What the operations wrote last under a key. */
  function Written(ops: seq<Operation>, s: Section, id: Id): Option<ItemInput> {
    if ops == [] then None
    else
      var op := ops[|ops| - 1];
      if op.UpsertKnowledge? && op.section == s && op.value.id == id then Some(op.value)
      else Written(ops[..|ops| - 1], s, id)
  }

  /** No supersession comes after an upsert. */
  ghost predicate Separated(ops: seq<Operation>) {
    forall i, j :: 0 <= i < j < |ops| && ops[i].UpsertKnowledge? ==> !Supersedes(ops[j])
  }

  /** An active item has the key and leads to none of the ids. */
  ghost predicate Remains(k: Knowledge, ids: set<Id>, s: Section, id: Id) {
    ActiveKey(k, s, id) && !Invalid(k, ids, id)
  }

  /** Operation `n` can apply once the ones before it have. */
  ghost predicate Applies(t: Target, k: Knowledge, ops: seq<Operation>, n: int)
    requires 0 <= n < |ops|
  {
    match ops[n]
    case UpsertKnowledge(_, value) => ValidItem(NewItem(value, 0))
    case SupersedeKnowledge(s, id, _) => Remains(k, SupersededIds(ops[..n]), s, id)
    case InvalidateEvidence(id, _) => Remains(k, SupersededIds(ops[..n]), EvidenceClaims, id)
    case RecordProbe(probe) => ProbeOk(probe, t.projectId)
    case ProposeDecomposition(d) => DecompositionOk(t, d)
  }

  ghost predicate AllApply(t: Target, k: Knowledge, ops: seq<Operation>) {
    forall n :: 0 <= n < |ops| ==> Applies(t, k, ops, n)
  }

  /** The key is written by the operations, or survives their supersessions. */
  ghost predicate Known(k: Knowledge, ops: seq<Operation>, s: Section, id: Id) {
    Written(ops, s, id).Some? || Remains(k, SupersededIds(ops), s, id)
  }

  ghost predicate KnownId(k: Knowledge, ops: seq<Operation>, id: Id) {
    exists s :: Known(k, ops, s, id)
  }

  ghost predicate OneSectionEach(k: Knowledge, ops: seq<Operation>) {
    forall s, t, id :: Known(k, ops, s, id) && Known(k, ops, t, id) ==> s == t
  }

  ghost predicate NeedsKnown(k: Knowledge, ops: seq<Operation>, value: ItemInput) {
    forall d :: d in Needs(value) ==> KnownId(k, ops, d)
  }

  ghost predicate DependenciesKnown(k: Knowledge, ops: seq<Operation>) {
    forall s, id :: Written(ops, s, id).Some? ==> NeedsKnown(k, ops, Written(ops, s, id).value)
  }

  ghost predicate WrittenEvidenceFits(ops: seq<Operation>, probe: Probe) {
    forall id :: Written(ops, EvidenceClaims, id).Some? ==>
      EvidenceCurrent(NewItem(Written(ops, EvidenceClaims, id).value, 0), probe)
  }

  ghost predicate OldEvidenceFits(k: Knowledge, ops: seq<Operation>, probe: Probe) {
    forall i :: ActiveAt(k, EvidenceClaims, i) && OldRemains(k, ops, k[EvidenceClaims][i].id) ==>
      EvidenceCurrent(k[EvidenceClaims][i], probe)
  }

  /** What a caller can check on the plan and the operations: no id ends up in two sections, what is written depends on
      known ids only, and the evidence left and the evidence written belong to the probe. */
  ghost predicate MeetsContract(k: Knowledge, ops: seq<Operation>, probe: Probe) {
    && OneSectionEach(k, ops) && DependenciesKnown(k, ops)
    && WrittenEvidenceFits(ops, probe) && OldEvidenceFits(k, ops, probe)
  }

  // The knowledge after the operations.

  /** What stands under a key afterwards: what was written last, or what is left of what was there. */
  ghost function ClosedView(k: Knowledge, ops: seq<Operation>): View {
    (s: Section, id: Id) =>
      if Written(ops, s, id).Some? then Some(NewItem(Written(ops, s, id).value, 0))
      else if Invalid(k, SupersededIds(ops), id) then None
      else FindActive(At(k, s), id)
  }

  ghost predicate Reflects(k: Knowledge, ops: seq<Operation>, w: Knowledge) {
    Matches(ClosedView(k, ops), w) && (NoUpserts(ops) ==> Left(k, SupersededIds(ops), w))
  }

  lemma LeftReflects(k: Knowledge, ops: seq<Operation>, w: Knowledge)
    requires UniqueActive(k) && HasEverySection(k) && NoUpserts(ops) && Left(k, SupersededIds(ops), w)
    ensures Reflects(k, ops, w)
  {
    hide UniqueActive, Left, LeftAt, Invalid, SupersededIds, FindActive, UniqueWithin, NoUpserts, SameContent;
    LeftShape(k, SupersededIds(ops), w);
    LeftUnique(k, SupersededIds(ops), w);
    forall s, id
      ensures SameFound(ClosedView(k, ops)(s, id), FindActive(At(w, s), id))
    {
      NothingWritten(ops, s, id);
      FoundAfter(k, SupersededIds(ops), w, s, id);
      SameAsItself(FindActive(At(w, s), id));
    }
  }

  lemma SameAsItself(found: Option<Item>)
    ensures SameFound(found, found)
  {
  }

  lemma LeftUnique(k: Knowledge, ids: set<Id>, w: Knowledge)
    requires UniqueActive(k) && Left(k, ids, w)
    ensures UniqueWithin(w)
  {
    hide UniqueActive, Invalid;
    forall s, i, j | ActiveAt(w, s, i) && ActiveAt(w, s, j) && w[s][i].id == w[s][j].id
      ensures i == j
    {
      assert LeftAt(k, ids, k[s][i], w[s][i]) && LeftAt(k, ids, k[s][j], w[s][j]);
      UniqueAt(k, s, i, s, j);
    }
  }

  lemma {:induction false} NothingWritten(ops: seq<Operation>, s: Section, id: Id)
    requires NoUpserts(ops)
    ensures Written(ops, s, id) == None
  {
    if ops != [] {
      assert ops[|ops| - 1] in ops;
      NothingWritten(ops[..|ops| - 1], s, id);
    }
  }

  lemma SameViewMatches(v: View, u: View, w: Knowledge)
    requires Matches(v, w) && forall s, id :: u(s, id) == v(s, id)
    ensures Matches(u, w)
  {
    hide HasEverySection, UniqueWithin, FindActive, SameFound;
  }

  lemma UpsertReflected(k: Knowledge, ops: seq<Operation>, w: Knowledge, revision: nat)
    requires ops != [] && ops[|ops| - 1].UpsertKnowledge? && Reflects(k, ops[..|ops| - 1], w)
    requires Upsert(w, ops[|ops| - 1].section, ops[|ops| - 1].value, revision).Ok?
    ensures Reflects(k, ops, Upsert(w, ops[|ops| - 1].section, ops[|ops| - 1].value, revision).value)
  {
    hide Invalid, Upsert, FindActive, Left, Matches, NewItem;
    var op := ops[|ops| - 1];
    var before := ClosedView(k, ops[..|ops| - 1]);
    UpsertMatches(before, w, op.section, op.value, revision);
    SameSuperseded(ops);
    assert op in ops;
    SameViewMatches(Put(before, op.section, op.value), ClosedView(k, ops),
      Upsert(w, op.section, op.value, revision).value);
  }

  lemma SameSuperseded(ops: seq<Operation>)
    requires ops != []
    ensures var before, op := SupersededIds(ops[..|ops| - 1]), ops[|ops| - 1];
      SupersededIds(ops) == if Supersedes(op) then before + {op.id} else before
  {
    assert ops == ops[..|ops| - 1] + [ops[|ops| - 1]];
  }

  lemma OtherReflected(k: Knowledge, ops: seq<Operation>, w: Knowledge)
    requires ops != [] && (ops[|ops| - 1].RecordProbe? || ops[|ops| - 1].ProposeDecomposition?)
    requires Reflects(k, ops[..|ops| - 1], w)
    ensures Reflects(k, ops, w)
  {
    hide Invalid, FindActive, Left, Matches, NewItem;
    SameSuperseded(ops);
    assert forall op :: op in ops[..|ops| - 1] ==> op in ops;
    SameViewMatches(ClosedView(k, ops[..|ops| - 1]), ClosedView(k, ops), w);
  }

  lemma SupersessionReflected(k: Knowledge, ops: seq<Operation>, w: Knowledge, s: Section, id: Id, heir: Id,
        revision: nat)
    requires UniqueActive(k) && HasEverySection(k)
    requires ops != [] && Supersedes(ops[|ops| - 1]) && ops[|ops| - 1].id == id && Separated(ops)
    requires Reflects(k, ops[..|ops| - 1], w)
    ensures Supersede(w, s, id, heir, revision).Ok? <==> Remains(k, SupersededIds(ops[..|ops| - 1]), s, id)
    ensures Supersede(w, s, id, heir, revision).Ok? ==> Reflects(k, ops, Supersede(w, s, id, heir, revision).value)
  {
    hide UniqueActive, Supersede, Left, Invalid, Matches, HasEverySection;
    var before := ops[..|ops| - 1];
    SeparatedStart(ops);
    SameSuperseded(ops);
    OneSupersession(k, SupersededIds(before), w, s, id, heir, revision);
    if Supersede(w, s, id, heir, revision).Ok? {
      LeftReflects(k, ops, Supersede(w, s, id, heir, revision).value);
    }
  }

  lemma SeparatedStart(ops: seq<Operation>)
    requires ops != [] && Supersedes(ops[|ops| - 1]) && Separated(ops)
    ensures NoUpserts(ops) && NoUpserts(ops[..|ops| - 1])
  {
    forall op | op in ops
      ensures !op.UpsertKnowledge?
    {
      var i :| 0 <= i < |ops| && ops[i] == op;
    }
  }

  lemma ApplyMore(t: Target, k: Knowledge, ops: seq<Operation>)
    requires ops != []
    ensures AllApply(t, k, ops) <==> AllApply(t, k, ops[..|ops| - 1]) && Applies(t, k, ops, |ops| - 1)
  {
    hide Remains, DecompositionOk, ValidItem, SupersededIds;
    var n := |ops| - 1;
    forall i | 0 <= i < n
      ensures Applies(t, k, ops[..n], i) <==> Applies(t, k, ops, i)
    {
      assert ops[..n][..i] == ops[..i];
    }
    if AllApply(t, k, ops) {
      forall i | 0 <= i < n
        ensures Applies(t, k, ops[..n], i)
      {
        assert Applies(t, k, ops, i);
      }
    }
  }

  /** A separated list of operations applies exactly when each of them does, and the knowledge it leaves is known. */
  lemma {:induction false} OperationsReflected(t: Target, start: Draft, ops: seq<Operation>, revision: nat)
    requires UniqueActive(start.knowledge) && HasEverySection(start.knowledge) && Separated(ops)
    ensures var r := ApplyOperations(t, start, ops, revision);
      && (r.Ok? <==> AllApply(t, start.knowledge, ops))
      && (r.Ok? ==> Reflects(start.knowledge, ops, r.value.knowledge) && r.value.probe == LastProbe(start.probe, ops))
  {
    hide UniqueActive, HasEverySection, Reflects, Supersede, Upsert, DecompositionOk, AllApply, SupersededIds, Remains,
      Separated;
    if ops == [] {
      NothingReflected(t, start.knowledge);
    } else {
      var n := |ops| - 1;
      SeparatedPrefix(ops);
      OperationsReflected(t, start, ops[..n], revision);
      ApplyMore(t, start.knowledge, ops);
      var before := ApplyOperations(t, start, ops[..n], revision);
      if before.Ok? {
        var w := before.value.knowledge;
        match ops[n]
        case UpsertKnowledge(s, value) =>
          ValidWhenever(value, revision);
          UpsertOk(w, s, value, revision);
          if Upsert(w, s, value, revision).Ok? {
            UpsertReflected(start.knowledge, ops, w, revision);
          }
        case SupersedeKnowledge(s, id, heir) =>
          SupersessionReflected(start.knowledge, ops, w, s, id, heir, revision);
        case InvalidateEvidence(id, heir) =>
          SupersessionReflected(start.knowledge, ops, w, EvidenceClaims, id, heir, revision);
        case RecordProbe(_) =>
          OtherReflected(start.knowledge, ops, w);
        case ProposeDecomposition(_) =>
          OtherReflected(start.knowledge, ops, w);
      }
    }
  }

  lemma SeparatedPrefix(ops: seq<Operation>)
    requires ops != [] && Separated(ops)
    ensures Separated(ops[..|ops| - 1])
  {
  }

  lemma NothingReflected(t: Target, k: Knowledge)
    requires UniqueActive(k) && HasEverySection(k)
    ensures Reflects(k, [], k) && AllApply(t, k, [])
  {
    hide UniqueActive, HasEverySection, Reflects;
    NothingInvalid(k);
    assert SupersededIds([]) == {};
    LeftReflects(k, [], k);
  }

  // Items stay valid.

  lemma AddedValid(k: Knowledge, s: Section, item: Item, revision: nat)
    requires HasEverySection(k) && s in k && ItemsOk(k, revision) && ValidItem(item) && RevisionsOk(item, revision)
    ensures HasEverySection(Added(k, s, item, revision)) && ItemsOk(Added(k, s, item, revision), revision)
  {
    hide ValidItem, RevisionsOk;
    var after := Added(k, s, item, revision);
    forall t, i | t in after && 0 <= i < |after[t]|
      ensures ValidItem(after[t][i]) && RevisionsOk(after[t][i], revision)
    {
      if i < |k[t]| {
        SupersededStaysValid(k[t][i], item.id, revision);
      }
    }
  }

  lemma SupersedeKeepsValid(k: Knowledge, s: Section, id: Id, heir: Id, revision: nat)
    requires ItemsOk(k, revision) && Supersede(k, s, id, heir, revision).Ok?
    ensures ItemsOk(Supersede(k, s, id, heir, revision).value, revision)
  {
    hide ValidItem, RevisionsOk, Affected;
    FoundSection(k, s, id);
    var marked := k[s := Retired(At(k, s), id, heir, revision)];
    var after := Cascaded(marked, {id}, heir, revision);
    forall t, i | t in after && 0 <= i < |after[t]|
      ensures ValidItem(after[t][i]) && RevisionsOk(after[t][i], revision)
    {
      CascadeAt(marked, {id}, heir, revision, t, i);
      SupersededStaysValid(k[t][i], heir, revision);
    }
  }

  lemma UpsertKeepsValid(k: Knowledge, s: Section, value: ItemInput, revision: nat)
    requires HasEverySection(k) && ItemsOk(k, revision) && Upsert(k, s, value, revision).Ok?
    ensures HasEverySection(Upsert(k, s, value, revision).value)
    ensures ItemsOk(Upsert(k, s, value, revision).value, revision)
  {
    hide ValidItem, ItemsOk, HasEverySection, SameContent, FindActive;
    EverySectionPresent(k);
    AddedValid(k, s, NewItem(value, revision), revision);
  }

  lemma {:induction false} OperationsKeepValid(t: Target, start: Draft, ops: seq<Operation>, revision: nat)
    requires HasEverySection(start.knowledge) && ItemsOk(start.knowledge, revision) && ProbeOk(start.probe, t.projectId)
    requires ApplyOperations(t, start, ops, revision).Ok?
    ensures var w := ApplyOperations(t, start, ops, revision).value;
      HasEverySection(w.knowledge) && ItemsOk(w.knowledge, revision) && ProbeOk(w.probe, t.projectId)
  {
    hide HasEverySection, ItemsOk, Supersede, Upsert, DecompositionOk;
    if ops != [] {
      var n := |ops| - 1;
      OperationsKeepValid(t, start, ops[..n], revision);
      var k := ApplyOperations(t, start, ops[..n], revision).value.knowledge;
      match ops[n]
      case UpsertKnowledge(s, value) =>
        UpsertKeepsValid(k, s, value, revision);
      case SupersedeKnowledge(s, id, heir) =>
        SupersedeKeepsValid(k, s, id, heir, revision);
        SupersedeKeepsSections(k, s, id, heir, revision);
      case InvalidateEvidence(id, heir) =>
        SupersedeKeepsValid(k, EvidenceClaims, id, heir, revision);
        SupersedeKeepsSections(k, EvidenceClaims, id, heir, revision);
      case RecordProbe(_) =>
      case ProposeDecomposition(_) =>
    }
  }

  // From what is known to the contract.

  lemma KnownStands(k: Knowledge, ops: seq<Operation>, s: Section, id: Id)
    ensures Known(k, ops, s, id) <==> Stands(ClosedView(k, ops), s, id)
  {
    hide Invalid, FindActive, NewItem;
  }

  lemma KnownIdStands(k: Knowledge, ops: seq<Operation>, id: Id)
    ensures KnownId(k, ops, id) <==> StandsId(ClosedView(k, ops), id)
  {
    hide Known, Stands;
    forall s
      ensures Known(k, ops, s, id) <==> Stands(ClosedView(k, ops), s, id)
    {
      KnownStands(k, ops, s, id);
    }
  }

  lemma ClosedSections(k: Knowledge, ops: seq<Operation>)
    ensures OneSectionEach(k, ops) <==> OneSection(ClosedView(k, ops))
  {
    hide Known, Stands;
    forall s, id
      ensures Known(k, ops, s, id) <==> Stands(ClosedView(k, ops), s, id)
    {
      KnownStands(k, ops, s, id);
    }
  }

  lemma ClosedDependencies(k: Knowledge, ops: seq<Operation>)
    requires DependenciesActive(k)
    ensures DependenciesKnown(k, ops) <==> DependenciesStand(ClosedView(k, ops))
  {
    hide KnownId, StandsId, FindActive, DependenciesActive, SupersededIds, Invalid, Needs, Deps, NewItem;
    var v := ClosedView(k, ops);
    forall id
      ensures KnownId(k, ops, id) <==> StandsId(v, id)
    {
      KnownIdStands(k, ops, id);
    }
    if DependenciesStand(v) {
      forall s, id | Written(ops, s, id).Some?
        ensures NeedsKnown(k, ops, Written(ops, s, id).value)
      {
        NewItemId(Written(ops, s, id).value);
        assert Stands(v, s, id);
      }
    }
    if DependenciesKnown(k, ops) {
      forall s, id, d | Stands(v, s, id) && d in Deps(v(s, id).value)
        ensures StandsId(v, d)
      {
        if Written(ops, s, id).Some? {
          NewItemId(Written(ops, s, id).value);
          assert NeedsKnown(k, ops, Written(ops, s, id).value);
        } else {
          var n := KeyIsActive(k, s, id);
          OldDependencyKnown(k, ops, s, n, d);
        }
      }
    }
  }

  /** What an item that remains depends on remains as well. */
  lemma OldDependencyKnown(k: Knowledge, ops: seq<Operation>, s: Section, n: nat, d: Id)
    requires DependenciesActive(k) && ActiveAt(k, s, n) && d in Deps(k[s][n])
    requires !Invalid(k, SupersededIds(ops), k[s][n].id)
    ensures KnownId(k, ops, d)
  {
    hide SupersededIds, FindActive, Deps, Invalid;
    assert ActiveId(k, d);
    var u, j :| ActiveAt(k, u, j) && k[u][j].id == d;
    ActiveHasKey(k, u, j);
    assert k[s][n] in k[s];
    assert Holds(k, k[s][n]);
    assert ActiveEdge(k, k[s][n].id, d);
    if Invalid(k, SupersededIds(ops), d) {
      EdgeToInvalid(k, SupersededIds(ops), k[s][n].id, d);
      assert false;
    }
    assert Known(k, ops, u, d);
  }

  lemma ClosedEvidence(k: Knowledge, ops: seq<Operation>, probe: Probe)
    requires UniqueActive(k)
    ensures WrittenEvidenceFits(ops, probe) && OldEvidenceFits(k, ops, probe) <==>
      EvidenceStands(ClosedView(k, ops), probe)
  {
    hide FindActive, Invalid, NewItem, SupersededIds, UniqueActive, EvidenceCurrent;
    var v := ClosedView(k, ops);
    if EvidenceStands(v, probe) {
      forall id | Written(ops, EvidenceClaims, id).Some?
        ensures EvidenceCurrent(NewItem(Written(ops, EvidenceClaims, id).value, 0), probe)
      {
        assert Stands(v, EvidenceClaims, id);
      }
      forall i | ActiveAt(k, EvidenceClaims, i) && OldRemains(k, ops, k[EvidenceClaims][i].id)
        ensures EvidenceCurrent(k[EvidenceClaims][i], probe)
      {
        FoundOld(k, i);
        assert Stands(v, EvidenceClaims, k[EvidenceClaims][i].id);
      }
    }
    if WrittenEvidenceFits(ops, probe) && OldEvidenceFits(k, ops, probe) {
      forall id | Stands(v, EvidenceClaims, id)
        ensures EvidenceCurrent(v(EvidenceClaims, id).value, probe)
      {
        if Written(ops, EvidenceClaims, id).None? {
          var n := KeyIsActive(k, EvidenceClaims, id);
        }
      }
    }
  }

  ghost predicate OldRemains(k: Knowledge, ops: seq<Operation>, id: Id) {
    Written(ops, EvidenceClaims, id).None? && !Invalid(k, SupersededIds(ops), id)
  }

  lemma FoundOld(k: Knowledge, i: int)
    requires UniqueActive(k) && ActiveAt(k, EvidenceClaims, i)
    ensures FindActive(At(k, EvidenceClaims), k[EvidenceClaims][i].id) == Some(k[EvidenceClaims][i])
  {
    hide UniqueActive, FindActive;
    forall j | ActiveAt(k, EvidenceClaims, j) && k[EvidenceClaims][j].id == k[EvidenceClaims][i].id
      ensures j == i
    {
      UniqueAt(k, EvidenceClaims, i, EvidenceClaims, j);
    }
    FoundAt(k, EvidenceClaims, i);
  }

  lemma ReflectedContract(k: Knowledge, ops: seq<Operation>, w: Knowledge, probe: Probe, before: nat, revision: nat)
    requires Sound(k, before) && Reflects(k, ops, w) && ItemsOk(w, revision)
    ensures Sound(w, revision) && EvidenceIsCurrent(w, probe) <==> MeetsContract(k, ops, probe)
  {
    hide OneSectionEach, DependenciesKnown, WrittenEvidenceFits, OldEvidenceFits, EvidenceIsCurrent, UniqueActive,
      DependenciesActive, ItemsOk, Matches, Left, ClosedView, OneSection, DependenciesStand, EvidenceStands;
    ClosedSections(k, ops);
    ClosedDependencies(k, ops);
    ClosedEvidence(k, ops, probe);
    MatchedContract(ClosedView(k, ops), w, probe);
    MatchedParts(ClosedView(k, ops), w);
  }

  // Main results.

  /** Nothing stands in the way of the delta before its operations meet the plan. */
  ghost predicate OpenTo(p: Plan, delta: Delta) {
    && PlanOk(p) && DeltaOk(delta) && p.publication.None? && p.groundedPlan.None?
    && delta.planId == p.id && delta.baseRevision == p.revision
  }

  /** Any delta is accepted exactly when each of its operations can apply to what stands before it. The plan it yields
      meets the contract exactly when the clock did not run backwards, each upsert whose item still stands fits (its id
      stands in no other section, what it needs stood when it came or is written by it or later, evidence belongs to
      the probe), and the evidence left of what was there belongs to the probe. */
  lemma DeltaMeetsContract(p: Plan, delta: Delta, now: int)
    ensures var r, k, ops := ApplyDelta(p, delta, now), p.knowledge, delta.operations;
      && (r.Ok? <==> OpenTo(p, delta) && EachApplies(p.target, k, ops))
      && (r.Ok? ==> (PlanOk(r.value) <==> p.createdAt <= now && OperationsFit(k, ops, LastProbe(p.probe, ops))))
  {
    hide PlanOk, DeltaOk, Sound, EvidenceIsCurrent, ApplyOperations, EachApplies, OperationsFit, Matches, DeriveState,
      ItemsOk, ViewAfter;
    if OpenTo(p, delta) {
      InputParts(p);
      var ops := delta.operations;
      OperationsMatch(p.target, DraftOf(p), ops, p.revision + 1);
      var r := ApplyDelta(p, delta, now);
      if r.Ok? {
        OutputSound(p, delta, now, r.value);
        OperationsKeepValid(p.target, DraftOf(p), ops, p.revision + 1);
        FollowedContract(p.knowledge, ops, r.value.knowledge, r.value.probe, p.revision, p.revision + 1);
      }
    }
  }

  lemma FollowedContract(k: Knowledge, ops: seq<Operation>, w: Knowledge, probe: Probe, before: nat, revision: nat)
    requires Sound(k, before) && Matches(ViewAfter(k, ops), w) && ItemsOk(w, revision)
    ensures Sound(w, revision) && EvidenceIsCurrent(w, probe) <==> OperationsFit(k, ops, probe)
  {
    hide EvidenceIsCurrent, UniqueActive, DependenciesActive, ItemsOk, Matches, ViewAfter, OneSection, OperationsFit,
      DependenciesStand, EvidenceStands;
    MatchedContract(ViewAfter(k, ops), w, probe);
    MatchedParts(ViewAfter(k, ops), w);
    ContractByUpserts(k, ops, probe);
  }

  /** Where no supersession follows an upsert, all that can be said on the input alone: which ids the supersessions
      take, and what is written or left. */
  lemma SeparatedMeetsContract(p: Plan, delta: Delta, now: int)
    requires Separated(delta.operations)
    ensures var r, ops := ApplyDelta(p, delta, now), delta.operations;
      && (r.Ok? <==> OpenTo(p, delta) && AllApply(p.target, p.knowledge, ops))
      && (r.Ok? ==>
        (PlanOk(r.value) <==> p.createdAt <= now && MeetsContract(p.knowledge, ops, LastProbe(p.probe, ops))))
  {
    hide PlanOk, DeltaOk, Sound, EvidenceIsCurrent, ApplyOperations, AllApply, MeetsContract, Separated, Reflects,
      DeriveState,
      ItemsOk;
    if OpenTo(p, delta) {
      InputParts(p);
      var ops := delta.operations;
      OperationsReflected(p.target, DraftOf(p), ops, p.revision + 1);
      var r := ApplyDelta(p, delta, now);
      if r.Ok? {
        OutputSound(p, delta, now, r.value);
        OperationsKeepValid(p.target, DraftOf(p), ops, p.revision + 1);
        ReflectedContract(p.knowledge, ops, r.value.knowledge, r.value.probe, p.revision, p.revision + 1);
      }
    }
  }

  lemma InputParts(p: Plan)
    requires PlanOk(p)
    ensures Sound(p.knowledge, p.revision) && EvidenceIsCurrent(p.knowledge, p.probe)
    ensures ProbeOk(p.probe, p.target.projectId)
    ensures HasEverySection(p.knowledge) && UniqueActive(p.knowledge) && ItemsOk(p.knowledge, p.revision + 1)
  {
    hide ValidItem, UniqueActive, DependenciesActive, DeriveState, DecompositionOk;
    SoundLater(p.knowledge, p.revision, p.revision + 1);
  }

  // Without upserts.

  /** The evidence active in `k` belongs to the probe or leads to a superseded id. */
  ghost predicate EvidenceFitsOrGoes(k: Knowledge, ops: seq<Operation>, probe: Probe) {
    forall i :: ActiveAt(k, EvidenceClaims, i) ==>
      Invalid(k, SupersededIds(ops), k[EvidenceClaims][i].id) || EvidenceCurrent(k[EvidenceClaims][i], probe)
  }

  lemma DeltaWithoutUpserts(p: Plan, delta: Delta, now: int, q: Plan)
    requires ApplyDelta(p, delta, now) == Ok(q) && NoUpserts(delta.operations)
    ensures PlanOk(q) <==>
      p.createdAt <= now && EvidenceFitsOrGoes(p.knowledge, delta.operations, LastProbe(p.probe, delta.operations))
    ensures Left(p.knowledge, SupersededIds(delta.operations), q.knowledge)
    ensures q.probe == LastProbe(p.probe, delta.operations)
  {
    hide PlanOk, AllApply, Left, Invalid, ApplyOperations, EvidenceCurrent, SupersededIds, DeriveState;
    var ops := delta.operations;
    assert Separated(ops);
    SeparatedMeetsContract(p, delta, now);
    InputParts(p);
    OperationsReflected(p.target, DraftOf(p), ops, p.revision + 1);
    forall s, id
      ensures Written(ops, s, id) == None
    {
      NothingWritten(ops, s, id);
    }
    OnlyOldKnown(p.knowledge, ops);
  }

  lemma OnlyOldKnown(k: Knowledge, ops: seq<Operation>)
    requires UniqueActive(k) && forall s, id :: Written(ops, s, id) == None
    ensures OneSectionEach(k, ops) && DependenciesKnown(k, ops)
  {
    hide UniqueActive, FindActive, Invalid, SupersededIds;
    forall s, t, id | Known(k, ops, s, id) && Known(k, ops, t, id)
      ensures s == t
    {
      var i := KeyIsActive(k, s, id);
      var j := KeyIsActive(k, t, id);
      UniqueAt(k, s, i, t, j);
    }
  }

  // Upserts only.

  ghost predicate ActiveElsewhere(k: Knowledge, s: Section, id: Id) {
    exists t :: t != s && ActiveKey(k, t, id)
  }

  /** What the caller can check before adding an item: its dependencies are known, its id is not active in another
      section, and evidence comes from the current snapshot. */
  ghost predicate Addable(k: Knowledge, probe: Probe, s: Section, item: Item) {
    && (forall d :: d in Deps(item) ==> d == item.id || ActiveId(k, d))
    && !ActiveElsewhere(k, s, item.id)
    && (s == EvidenceClaims ==> EvidenceCurrent(item, probe))
  }

  lemma ActiveIdByKey(k: Knowledge, id: Id)
    ensures ActiveId(k, id) <==> exists s :: ActiveKey(k, s, id)
  {
    hide FindActive;
    if s, i :| ActiveAt(k, s, i) && k[s][i].id == id {
      ActiveHasKey(k, s, i);
    }
    if s :| ActiveKey(k, s, id) {
      var i := KeyIsActive(k, s, id);
    }
  }

  /** Where nothing is superseded, what is written or active is known. */
  lemma KnownByUpserts(k: Knowledge, ops: seq<Operation>, s: Section, id: Id)
    requires SupersededIds(ops) == {}
    ensures Known(k, ops, s, id) <==> Written(ops, s, id).Some? || ActiveKey(k, s, id)
  {
    hide Invalid;
    NothingInvalidated(k, id);
  }

  lemma OneWritten(s: Section, input: ItemInput, t: Section, id: Id)
    ensures Written([UpsertKnowledge(s, input)], t, id) == if t == s && id == input.id then Some(input) else None
  {
    assert [UpsertKnowledge(s, input)][..0] == [];
  }

  lemma OneUpsertParts(k: Knowledge, s: Section, input: ItemInput, revision: nat)
    requires UniqueActive(k)
    ensures var ops := [UpsertKnowledge(s, input)];
      && SupersededIds(ops) == {}
      && (OneSectionEach(k, ops) <==> !ActiveElsewhere(k, s, input.id))
      && (forall d :: KnownId(k, ops, d) <==> d == input.id || ActiveId(k, d))
  {
    hide UniqueActive, FindActive, ActiveKey, ActiveId, Written, Known;
    var ops := [UpsertKnowledge(s, input)];
    assert SupersededIds(ops) == {};
    forall t, id
      ensures Known(k, ops, t, id) <==> (t == s && id == input.id) || ActiveKey(k, t, id)
    {
      KnownByUpserts(k, ops, t, id);
      OneWritten(s, input, t, id);
    }
    forall d
      ensures KnownId(k, ops, d) <==> d == input.id || ActiveId(k, d)
    {
      ActiveIdByKey(k, d);
      assert d == input.id ==> Known(k, ops, s, d);
    }
    if OneSectionEach(k, ops) {
      assert Known(k, ops, s, input.id);
    } else {
      var t, u, id :| Known(k, ops, t, id) && Known(k, ops, u, id) && t != u;
      if (t != s && u != s) || id != input.id {
        OneActiveSection(k, t, u, id);
        assert false;
      }
    }
  }

  lemma OneActiveSection(k: Knowledge, s: Section, t: Section, id: Id)
    requires UniqueActive(k) && ActiveKey(k, s, id) && ActiveKey(k, t, id)
    ensures s == t
  {
    hide UniqueActive, ActiveKey;
    var i := KeyIsActive(k, s, id);
    var j := KeyIsActive(k, t, id);
    UniqueAt(k, s, i, t, j);
  }

  lemma OneUpsert(k: Knowledge, probe: Probe, s: Section, input: ItemInput, revision: nat)
    requires UniqueActive(k) && EvidenceIsCurrent(k, probe)
    ensures MeetsContract(k, [UpsertKnowledge(s, input)], probe) <==> Addable(k, probe, s, NewItem(input, revision))
  {
    hide UniqueActive, FindActive, ActiveElsewhere, ActiveId, KnownId, Written, OneSectionEach, EvidenceCurrent;
    var ops := [UpsertKnowledge(s, input)];
    OneUpsertParts(k, s, input, revision);
    forall t, id
      ensures Written(ops, t, id) == if t == s && id == input.id then Some(input) else None
    {
      OneWritten(s, input, t, id);
    }
    SameContentFits(NewItem(input, revision), input, probe);
    CurrentOldEvidenceFits(k, ops, probe);
    assert Written(ops, s, input.id) == Some(input);
    assert Deps(NewItem(input, revision)) == Needs(input);
    assert DependenciesKnown(k, ops) <==> NeedsKnown(k, ops, input);
  }

  lemma CurrentOldEvidenceFits(k: Knowledge, ops: seq<Operation>, probe: Probe)
    requires EvidenceIsCurrent(k, probe)
    ensures OldEvidenceFits(k, ops, probe)
  {
    hide EvidenceCurrent, Invalid, SupersededIds, Written;
    forall i | ActiveAt(k, EvidenceClaims, i)
      ensures EvidenceCurrent(k[EvidenceClaims][i], probe)
    {
      assert k[EvidenceClaims][i] in At(k, EvidenceClaims);
    }
  }

  /** A delta of one upsert yields a plan that meets the contract exactly when the item was addable. */
  lemma UpsertMeetsContract(p: Plan, delta: Delta, s: Section, input: ItemInput, now: int, q: Plan)
    requires delta.operations == [UpsertKnowledge(s, input)] && ApplyDelta(p, delta, now) == Ok(q)
    ensures PlanOk(q) <==> p.createdAt <= now && Addable(p.knowledge, p.probe, s, NewItem(input, p.revision + 1))
  {
    hide PlanOk, Addable, ApplyDelta, MeetsContract, ActiveId, AllApply;
    var ops := [UpsertKnowledge(s, input)];
    SeparatedMeetsContract(p, delta, now);
    InputParts(p);
    OneUpsert(p.knowledge, p.probe, s, input, p.revision + 1);
    assert ops[..0] == [];
    assert LastProbe(p.probe, ops) == p.probe;
  }

  /** One item, contributed on its own. */
  function Contribution(p: Plan, s: Section, input: ItemInput): Delta {
    Delta(p.id, p.revision, [UpsertKnowledge(s, input)], "reason")
  }

  lemma ContributionOk(p: Plan, s: Section, input: ItemInput)
    requires PlanOk(p) && InputOk(input)
    ensures DeltaOk(Contribution(p, s, input))
  {
    hide InputOk, KnowledgeOk, DecompositionOk, DeriveState, Trim;
    NothingToTrim("reason");
  }

  /** An addable item under a free key, contributed alone, makes the next plan of the journal. */
  lemma AddableIsAdded(p: Plan, s: Section, input: ItemInput, now: int) returns (q: Plan)
    requires PlanOk(p) && p.publication.None? && p.groundedPlan.None? && p.createdAt <= now
    requires !ActiveKey(p.knowledge, s, input.id) && InputOk(input) && ValidItem(NewItem(input, p.revision + 1))
    requires Addable(p.knowledge, p.probe, s, NewItem(input, p.revision + 1))
    ensures ApplyDelta(p, Contribution(p, s, input), now) == Ok(q) && Next(p, q) && PlanOk(q)
    ensures q.knowledge == Added(p.knowledge, s, NewItem(input, p.revision + 1), p.revision + 1)
    ensures q ==
      p.(revision := q.revision, previousRevision := q.previousRevision, updatedAt := now, knowledge := q.knowledge,
        derived := q.derived)
    ensures q.revision == p.revision + 1
  {
    hide PlanOk, Addable, ApplyOperations, DeriveState, Retired, Trim, ValidItem, DeltaOk;
    var op := UpsertKnowledge(s, input);
    OneOperation(p.target, DraftOf(p), op, p.revision + 1);
    ContributionOk(p, s, input);
    q := ApplyDelta(p, Contribution(p, s, input), now).value;
    assert Step(p, ChangeBy(Contribution(p, s, input), now)) == Ok(q);
    UpsertMeetsContract(p, Contribution(p, s, input), s, input, now, q);
  }

  lemma OneOperation(t: Target, w: Draft, op: Operation, revision: nat)
    ensures ApplyOperations(t, w, [op], revision) == ApplyOperation(t, w, op, revision)
  {
    hide ApplyOperation;
    assert [op][..0] == [];
    assert ApplyOperations(t, w, [op][..0], revision) == Ok(w);
  }

  lemma EmptyKnowledgeOk(probe: Probe, revision: nat)
    ensures KnowledgeOk(EmptyKnowledge(), probe, revision)
  {
    hide ValidItem, RevisionsOk, EvidenceCurrent;
    assert forall s, i :: !ActiveAt(EmptyKnowledge(), s, i);
  }

  /** A journal starts with a plan that meets the contract. */
  lemma CreatedPlanOk(id: Id, target: Target, probe: Probe, now: int)
    requires Identifier(id) && TargetOk(target) && ProbeOk(probe, target.projectId)
    ensures PlanOk(CreatePlan(id, target, probe, now))
  {
    hide KnowledgeOk, EmptyKnowledge, DecompositionOk, IsGrounded, RecommendedPipeline, NextAction;
    EmptyKnowledgeOk(probe, 1);
    DerivedIgnoresCache(CreatePlan(id, target, probe, now), DerivedState(probe.nature, Emerging, Pending,
      Conversational, None, ContinueConversation));
  }

  lemma CreatedInitial(id: Id, target: Target, probe: Probe, now: int)
    ensures Initial(CreatePlan(id, target, probe, now))
  {
  }

  lemma FirstAddable(p: Plan, s: Section, input: ItemInput)
    requires p.knowledge == EmptyKnowledge() && input.dependsOn.None?
    requires s == EvidenceClaims ==> EvidenceCurrent(NewItem(input, 2), p.probe)
    ensures Addable(p.knowledge, p.probe, s, NewItem(input, 2)) && !ActiveKey(p.knowledge, s, input.id)
  {
    hide ValidItem, Trim;
  }

  const DANGLING := ItemInput("a", "s", Provenance(HumanDecision, "r", None, None, None), None, Some(["b"]))

  lemma DanglingIsValid(revision: nat)
    ensures InputOk(DANGLING) && ValidItem(NewItem(DANGLING, revision)) && NewItem(DANGLING, revision).id == "a"
    ensures "b" in Deps(NewItem(DANGLING, revision))
  {
    hide Trim, Identifier, IdentifiersOnce;
    NothingToTrim("s");
    NothingToTrim("r");
    PlainIdentifiers();
    assert Deps(NewItem(DANGLING, revision)) == ["b"];
  }

  lemma PlainIdentifiers()
    ensures Identifier("plan") && Identifier("a") && Identifier("b") && IdentifiersOnce(["a"]) && IdentifiersOnce(["b"])
  {
  }

  lemma NothingActive(id: Id)
    ensures !ActiveId(EmptyKnowledge(), id)
  {
  }

  /** An input that shows it: an item may depend on an id nobody introduced, and the plan it yields breaks the
      contract. */
  lemma UnknownDependencyAccepted(target: Target, probe: Probe) returns (p: Plan, delta: Delta, q: Plan)
    requires TargetOk(target) && ProbeOk(probe, target.projectId)
    ensures PlanOk(p) && ApplyDelta(p, delta, 0) == Ok(q) && !PlanOk(q)
  {
    hide DeriveState, PlanOk, DeltaOk, InputOk, Identifier, ActiveId, ActiveElsewhere, EmptyKnowledge, NewItem,
      ValidItem, ApplyDelta,
      DecompositionOk;
    p := CreatePlan("plan", target, probe, 0);
    PlainIdentifiers();
    CreatedPlanOk("plan", target, probe, 0);
    delta := Contribution(p, Decisions, DANGLING);
    DanglingIsValid(0);
    ContributionOk(p, Decisions, DANGLING);
    DanglingIsValid(2);
    SeparatedMeetsContract(p, delta, 0);
    q := ApplyDelta(p, delta, 0).value;
    UpsertMeetsContract(p, delta, Decisions, DANGLING, 0, q);
    NothingActive("b");
  }

}
