/** Rebasing a stale delta onto the current revision: what overlaps becomes an explicit contradiction. */
module FramingRebase {
  import opened Wrappers
  import opened FramingKnowledge
  import opened FramingPlan
  import opened Texts
  import opened Decimal

  datatype Key = KnowledgeKey(section: Section, id: Id) | ProbeKey | DecompositionKey

  /** Stands for the first twelve hexadecimal digits of a hash over plan, base revision, key and statement. */
  type Suffix = (Id, nat, Key, string) -> string

  datatype RebaseError = ConflictOn(key: Key)

  function ItemsWithId(items: seq<Item>, id: Id): seq<Item> {
    if items == [] then []
    else (if items[0].id == id then [items[0]] else []) + ItemsWithId(items[1..], id)
  }

  /** Something under the key differs between the two plans. */
  predicate Changed(base: Plan, current: Plan, key: Key) {
    match key
    case KnowledgeKey(s, id) => ItemsWithId(At(base.knowledge, s), id) != ItemsWithId(At(current.knowledge, s), id)
    case ProbeKey => base.probe != current.probe
    case DecompositionKey => base.decomposition != current.decomposition
  }

  function KeyOf(op: Operation): Key {
    match op
    case RecordProbe(_) => ProbeKey
    case ProposeDecomposition(_) => DecompositionKey
    case InvalidateEvidence(id, _) => KnowledgeKey(EvidenceClaims, id)
    case UpsertKnowledge(s, value) => KnowledgeKey(s, value.id)
    case SupersedeKnowledge(s, id, _) => KnowledgeKey(s, id)
  }

  predicate Overlaps(base: Plan, current: Plan, op: Operation) {
    Changed(base, current, KeyOf(op))
  }

  function SuffixOf(delta: Delta, suffix: Suffix, op: Operation): string
    requires op.UpsertKnowledge?
  {
    suffix(delta.planId, delta.baseRevision, KeyOf(op), op.value.statement)
  }

  function AlternativeId(delta: Delta, suffix: Suffix, op: Operation): Id
    requires op.UpsertKnowledge?
  {
    Take(op.value.id, 230) + "-alternative-" + SuffixOf(delta, suffix, op)
  }

  function ContradictionId(delta: Delta, suffix: Suffix, op: Operation): Id
    requires op.UpsertKnowledge?
  {
    "contradiction-" + SuffixOf(delta, suffix, op)
  }

  /** The contribution under an id of its own. */
  function Alternative(delta: Delta, suffix: Suffix, op: Operation): Operation
    requires op.UpsertKnowledge?
  {
    UpsertKnowledge(op.section, op.value.(id := AlternativeId(delta, suffix, op)))
  }

  /** The open decision that blocks progress until the two are confronted. */
  function Contradiction(delta: Delta, suffix: Suffix, op: Operation): Operation
    requires op.UpsertKnowledge?
  {
    UpsertKnowledge(Decisions, ItemInput(
      ContradictionId(delta, suffix, op),
      "Two concurrent contributions contradict " + op.value.id + "; confront the alternatives before continuing.",
      Provenance(Open, "concurrent-revision:" + Digits(delta.baseRevision), None, None, None),
      Some(true),
      Some([op.value.id, AlternativeId(delta, suffix, op)])))
  }

  function PreservedOne(base: Plan, current: Plan, delta: Delta, suffix: Suffix, op: Operation): Result<seq<Operation>,
        RebaseError> {
    if !Overlaps(base, current, op) then Ok([op])
    else if !op.UpsertKnowledge? then Err(ConflictOn(KeyOf(op)))
    else Ok([Alternative(delta, suffix, op), Contradiction(delta, suffix, op)])
  }

  function Preserved(base: Plan, current: Plan, delta: Delta, suffix: Suffix,
        ops: seq<Operation>): Result<seq<Operation>, RebaseError> {
    if ops == [] then Ok([])
    else match Preserved(base, current, delta, suffix, ops[..|ops| - 1])
      case Err(e) => Err(e)
      case Ok(before) =>
        match PreservedOne(base, current, delta, suffix, ops[|ops| - 1])
        case Err(e) => Err(e)
        case Ok(last) => Ok(before + last)
  }

  const PRESERVED := " Concurrent contradictions were preserved for explicit resolution."

  /** The reason says so where something overlaps. */
  function RebasedReason(base: Plan, current: Plan, delta: Delta): string {
    if exists op :: op in delta.operations && Overlaps(base, current, op) then delta.reason + PRESERVED
      else delta.reason
  }

  /** A delta written against `base`, made applicable to `current`. */
  function Rebased(base: Plan, current: Plan, delta: Delta, suffix: Suffix): Result<Delta, RebaseError> {
    if delta.baseRevision == current.revision then Ok(delta)
    else match Preserved(base, current, delta, suffix, delta.operations)
      case Err(e) => Err(e)
      case Ok(ops) => Ok(Delta(delta.planId, current.revision, ops, RebasedReason(base, current, delta)))
  }

  /** Where nothing overlaps, the operations go through unchanged. */
  lemma {:induction false} NoOverlapKeepsOperations(base: Plan, current: Plan, delta: Delta, suffix: Suffix,
        ops: seq<Operation>)
    requires forall op :: op in ops ==> !Overlaps(base, current, op)
    ensures Preserved(base, current, delta, suffix, ops) == Ok(ops)
  {
    hide Overlaps;
    if ops != [] {
      NoOverlapKeepsOperations(base, current, delta, suffix, ops[..|ops| - 1]);
      assert ops[|ops| - 1] in ops;
      assert ops == ops[..|ops| - 1] + [ops[|ops| - 1]];
    }
  }

  /** Where each operation of the rebased delta comes from. */
  ghost predicate ComesFrom(base: Plan, current: Plan, delta: Delta, suffix: Suffix, op: Operation,
        original: Operation) {
    if Overlaps(base, current, original) then
      original.UpsertKnowledge? && (op == Alternative(delta, suffix, original) ||
        op == Contradiction(delta, suffix, original))
    else op == original
  }

  lemma {:induction false} PreservedOrigins(base: Plan, current: Plan, delta: Delta, suffix: Suffix,
        ops: seq<Operation>)
    requires Preserved(base, current, delta, suffix, ops).Ok?
    ensures forall op :: op in Preserved(base, current, delta, suffix, ops).value ==>
      exists original :: original in ops && ComesFrom(base, current, delta, suffix, op, original)
    ensures forall original :: original in ops && Overlaps(base, current, original) ==>
      && original.UpsertKnowledge?
      && Alternative(delta, suffix, original) in Preserved(base, current, delta, suffix, ops).value
      && Contradiction(delta, suffix, original) in Preserved(base, current, delta, suffix, ops).value
  {
    hide Overlaps, Alternative, Contradiction;
    if ops != [] {
      var n := |ops| - 1;
      PreservedOrigins(base, current, delta, suffix, ops[..n]);
      var before := Preserved(base, current, delta, suffix, ops[..n]).value;
      var last := PreservedOne(base, current, delta, suffix, ops[n]).value;
      assert ops == ops[..n] + [ops[n]];
      forall op | op in before + last
        ensures exists original :: original in ops && ComesFrom(base, current, delta, suffix, op, original)
      {
        if op in before {
          var original :| original in ops[..n] && ComesFrom(base, current, delta, suffix, op, original);
          assert original in ops;
        } else {
          assert ComesFrom(base, current, delta, suffix, op, ops[n]);
        }
      }
    }
  }

  // What a list of operations leaves alone.

  /** A dependency of the current knowledge, or one the operations bring in themselves. */
  ghost predicate PossibleEdge(k: Knowledge, ops: seq<Operation>, a: Id, b: Id) {
    || ActiveEdge(k, a, b)
    || exists op ::
      op in ops && op.UpsertKnowledge? && op.value.id == a && op.value.dependsOn.Some? && b in op.value.dependsOn.value
  }

  ghost predicate PossibleChain(k: Knowledge, ops: seq<Operation>, p: seq<Id>) {
    && p != []
    && p[|p| - 1] in SupersededIds(ops)
    && forall i :: 0 <= i < |p| - 1 ==> PossibleEdge(k, ops, p[i], p[i + 1])
  }

  /** The item depends, directly or not, on something the operations supersede. */
  ghost predicate Dependent(k: Knowledge, ops: seq<Operation>, item: Item) {
    exists p :: PossibleChain(k, ops, p) && p[0] in Deps(item)
  }

  ghost predicate OwnKey(ops: seq<Operation>, s: Section, id: Id) {
    exists op :: op in ops && KeyOf(op) == KnowledgeKey(s, id)
  }

  /** Outside the operations' own keys and outside the dependents of what they supersede. */
  ghost predicate Outside(k: Knowledge, ops: seq<Operation>, s: Section, item: Item) {
    !OwnKey(ops, s, item.id) && !Dependent(k, ops, item)
  }

  /** An item the operations brought in. */
  ghost predicate BroughtIn(ops: seq<Operation>, s: Section, item: Item) {
    exists op ::
      op in ops && op.UpsertKnowledge? && op.section == s && op.value.id == item.id &&
        op.value.dependsOn == item.dependsOn
  }

  /** `w` is `k` with items outside the operations' reach unchanged in place, and only their own items added. */
  ghost predicate NothingLost(k: Knowledge, ops: seq<Operation>, w: Knowledge) {
    && w.Keys == k.Keys
    && forall s :: s in k ==>
         && |k[s]| <= |w[s]|
         && (forall i :: 0 <= i < |k[s]| ==>
              && (w[s][i].active ==> w[s][i] == k[s][i])
              && (!k[s][i].active || Outside(k, ops, s, k[s][i]) ==> w[s][i] == k[s][i]))
         && (forall i :: |k[s]| <= i < |w[s]| ==> BroughtIn(ops, s, w[s][i]))
  }

  lemma EdgesArePossible(k: Knowledge, ops: seq<Operation>, w: Knowledge, a: Id, b: Id)
    requires NothingLost(k, ops, w) && ActiveEdge(w, a, b)
    ensures PossibleEdge(k, ops, a, b)
  {
    hide Outside;
    var item :| Holds(w, item) && item.active && item.id == a && b in Deps(item);
    var s :| s in w && item in w[s];
    var i :| 0 <= i < |w[s]| && w[s][i] == item;
    if i < |k[s]| {
      assert k[s][i] in k[s];
      assert Holds(k, k[s][i]);
    } else {
      assert BroughtIn(ops, s, w[s][i]);
    }
  }

  lemma AffectedIsDependent(k: Knowledge, ops: seq<Operation>, w: Knowledge, id: Id, item: Item)
    requires NothingLost(k, ops, w) && id in SupersededIds(ops)
    requires Affected(w, {id}, item)
    ensures Dependent(k, ops, item)
  {
    hide NothingLost, SupersededIds, ActiveEdge, PossibleEdge;
    var d :| d in Deps(item) && Invalid(w, {id}, d);
    var p :| LeadsToSeed(w, {id}, p) && p[0] == d;
    forall i | 0 <= i < |p| - 1
      ensures PossibleEdge(k, ops, p[i], p[i + 1])
    {
      EdgesArePossible(k, ops, w, p[i], p[i + 1]);
    }
    assert PossibleChain(k, ops, p);
  }

  lemma RetireLosesNothing(k: Knowledge, ops: seq<Operation>, w: Knowledge, s: Section, id: Id, heir: Id,
        revision: nat, more: seq<Item>)
    requires NothingLost(k, ops, w) && s in w && OwnKey(ops, s, id)
    requires forall item :: item in more ==> BroughtIn(ops, s, item)
    ensures NothingLost(k, ops, w[s := Retired(At(w, s), id, heir, revision) + more])
  {
    hide OwnKey, Dependent;
    var after := w[s := Retired(At(w, s), id, heir, revision) + more];
    forall i | |k[s]| <= i < |after[s]|
      ensures BroughtIn(ops, s, after[s][i])
    {
      if i < |w[s]| {
        assert BroughtIn(ops, s, w[s][i]);
      } else {
        assert after[s][i] in more;
      }
    }
  }

  lemma CascadeLosesNothing(k: Knowledge, ops: seq<Operation>, w: Knowledge, id: Id, heir: Id, revision: nat)
    requires NothingLost(k, ops, w) && id in SupersededIds(ops)
    ensures NothingLost(k, ops, Cascaded(w, {id}, heir, revision))
  {
    hide SupersededIds, OwnKey, Dependent, Affected;
    var after := Cascaded(w, {id}, heir, revision);
    forall s, i | s in w && 0 <= i < |w[s]|
      ensures after[s][i] == w[s][i] ||
        (after[s][i] == Superseded(w[s][i], heir, revision) && Dependent(k, ops, w[s][i]) && w[s][i].active)
    {
      if Affected(w, {id}, w[s][i]) {
        AffectedIsDependent(k, ops, w, id, w[s][i]);
        ActiveWhenAffected(w, {id}, w[s][i]);
      }
    }
    forall s, i | s in k && |k[s]| <= i < |after[s]|
      ensures BroughtIn(ops, s, after[s][i])
    {
      assert BroughtIn(ops, s, w[s][i]);
    }
  }

  lemma ActiveWhenAffected(k: Knowledge, seeds: set<Id>, item: Item)
    requires Affected(k, seeds, item)
    ensures item.active
  {
  }

  lemma OperationLosesNothing(t: Target, k: Knowledge, ops: seq<Operation>, w: Draft, op: Operation, revision: nat)
    requires NothingLost(k, ops, w.knowledge) && HasEverySection(w.knowledge) && op in ops
    requires ApplyOperation(t, w, op, revision).Ok?
    ensures NothingLost(k, ops, ApplyOperation(t, w, op, revision).value.knowledge)
    ensures HasEverySection(ApplyOperation(t, w, op, revision).value.knowledge)
  {
    hide NothingLost, Cascaded, Retired;
    EverySectionPresent(w.knowledge);
    match op
    case UpsertKnowledge(s, value) =>
      var item := NewItem(value, revision);
      assert OwnKey(ops, s, item.id) && BroughtIn(ops, s, item);
      RetireLosesNothing(k, ops, w.knowledge, s, item.id, item.id, revision, [item]);
    case SupersedeKnowledge(s, id, heir) =>
      SupersedeLosesNothing(k, ops, w.knowledge, s, id, heir, revision, op);
    case InvalidateEvidence(id, heir) =>
      SupersedeLosesNothing(k, ops, w.knowledge, EvidenceClaims, id, heir, revision, op);
    case RecordProbe(_) =>
    case ProposeDecomposition(_) =>
  }

  lemma SupersedeLosesNothing(k: Knowledge, ops: seq<Operation>, w: Knowledge, s: Section, id: Id, heir: Id,
        revision: nat, op: Operation)
    requires NothingLost(k, ops, w) && HasEverySection(w) && op in ops && KeyOf(op) == KnowledgeKey(s, id)
    requires (op.SupersedeKnowledge? && op.id == id) || (op.InvalidateEvidence? && op.id == id)
    requires Supersede(w, s, id, heir, revision).Ok?
    ensures NothingLost(k, ops, Supersede(w, s, id, heir, revision).value)
    ensures HasEverySection(Supersede(w, s, id, heir, revision).value)
  {
    hide NothingLost, Retired;
    EverySectionPresent(w);
    assert OwnKey(ops, s, id);
    var marked := w[s := Retired(At(w, s), id, heir, revision)];
    assert Retired(At(w, s), id, heir, revision) + [] == Retired(At(w, s), id, heir, revision);
    RetireLosesNothing(k, ops, w, s, id, heir, revision, []);
    CascadeLosesNothing(k, ops, marked, id, heir, revision);
  }

  lemma {:induction false} OperationsLoseNothing(t: Target, start: Draft, ops: seq<Operation>, all: seq<Operation>,
        revision: nat)
    requires HasEverySection(start.knowledge) && forall op :: op in ops ==> op in all
    requires ApplyOperations(t, start, ops, revision).Ok?
    ensures NothingLost(start.knowledge, all, ApplyOperations(t, start, ops, revision).value.knowledge)
    ensures HasEverySection(ApplyOperations(t, start, ops, revision).value.knowledge)
  {
    hide ApplyOperation, Outside, BroughtIn;
    if ops != [] {
      hide NothingLost, HasEverySection;
      var n := |ops| - 1;
      OperationsLoseNothing(t, start, ops[..n], all, revision);
      OperationLosesNothing(t, start.knowledge, all, ApplyOperations(t, start, ops[..n], revision).value, ops[n],
        revision);
    }
  }

  /** No update is lost: whatever the delta, knowledge outside its own keys and outside the dependents of what it
      supersedes is still there, in place and unchanged. */
  lemma DeltaLosesNothing(p: Plan, delta: Delta, now: int, q: Plan)
    requires ApplyDelta(p, delta, now) == Ok(q)
    ensures NothingLost(p.knowledge, delta.operations, q.knowledge)
  {
    hide ApplyOperations, NothingLost, KnowledgeOk, DecompositionOk, DeriveState;
    SectionsOf(p);
    OperationsLoseNothing(p.target, DraftOf(p), delta.operations, delta.operations, p.revision + 1);
  }

  lemma SectionsOf(p: Plan)
    requires PlanOk(p)
    ensures HasEverySection(p.knowledge)
  {
  }

  // Upsert-only deltas.

  /** The section holds an active item with the content of `value`. */
  ghost predicate Present(k: Knowledge, s: Section, value: ItemInput) {
    exists item :: item in At(k, s) && item.active && item.id == value.id && SameContent(item, NewItem(value, 0))
  }

  lemma {:induction false} FoundIsThere(items: seq<Item>, id: Id)
    ensures var r := FindActive(items, id); r.Some? ==> r.value in items && r.value.active && r.value.id == id
  {
    if items != [] {
      FoundIsThere(items[1..], id);
    }
  }

  lemma UpsertEstablishes(k: Knowledge, s: Section, value: ItemInput, revision: nat)
    requires Upsert(k, s, value, revision).Ok?
    ensures Present(Upsert(k, s, value, revision).value, s, value)
  {
    var item := NewItem(value, revision);
    FoundIsThere(At(k, s), item.id);
    var after := Upsert(k, s, value, revision).value;
    var existing := FindActive(At(k, s), item.id);
    if existing.Some? && SameContent(existing.value, item) {
      assert existing.value in At(after, s);
    } else {
      assert after[s][|after[s]| - 1] == item;
      assert item in At(after, s);
    }
  }

  lemma UpsertElsewhere(k: Knowledge, s: Section, value: ItemInput, revision: nat, t: Section, other: ItemInput)
    requires Upsert(k, s, value, revision).Ok? && Present(k, t, other)
    requires !(t == s && other.id == value.id)
    ensures Present(Upsert(k, s, value, revision).value, t, other)
  {
    var item :| item in At(k, t) && item.active && item.id == other.id && SameContent(item, NewItem(other, 0));
    var i :| 0 <= i < |At(k, t)| && At(k, t)[i] == item;
    var after := Upsert(k, s, value, revision).value;
    assert At(after, t)[i] == item;
  }

  /** After upserts, every key that was written holds what the last write under it said. */
  lemma {:induction false} UpsertsLeavePresent(t: Target, start: Draft, ops: seq<Operation>, revision: nat,
        op: Operation)
    requires UpsertsOnly(ops) && op in ops && ApplyOperations(t, start, ops, revision).Ok?
    ensures var after := ApplyOperations(t, start, ops, revision).value.knowledge;
      exists last :: last in ops && KeyOf(last) == KeyOf(op) && Present(after, last.section, last.value)
  {
    hide Upsert, Present;
    var n := |ops| - 1;
    var before := ApplyOperations(t, start, ops[..n], revision).value;
    var last := ops[n];
    assert last in ops;
    if KeyOf(last) == KeyOf(op) {
      UpsertEstablishes(before.knowledge, last.section, last.value, revision);
    } else {
      assert op in ops[..n] by {
        assert ops == ops[..n] + [last];
      }
      UpsertsLeavePresent(t, start, ops[..n], revision, op);
      var writer :| writer in ops[..n] && KeyOf(writer) == KeyOf(op) &&
        Present(before.knowledge, writer.section, writer.value);
      UpsertElsewhere(before.knowledge, last.section, last.value, revision, writer.section, writer.value);
      assert writer in ops;
    }
  }

  /** An upsert the rebase has to split in two. */
  predicate Split(base: Plan, current: Plan, delta: Delta, op: Operation) {
    op in delta.operations && op.UpsertKnowledge? && Overlaps(base, current, op)
  }

  /** The keys generated for `a` are not the delta's own. */
  predicate FreshAgainst(delta: Delta, suffix: Suffix, a: Operation, b: Operation)
    requires a.UpsertKnowledge?
  {
    KeyOf(Alternative(delta, suffix, a)) != KeyOf(b) && KeyOf(Contradiction(delta, suffix, a)) != KeyOf(b)
  }

  /** The keys generated for `a` and `b` meet only if the two agree on key and statement. */
  predicate FreshTogether(delta: Delta, suffix: Suffix, a: Operation, b: Operation)
    requires a.UpsertKnowledge? && b.UpsertKnowledge?
  {
    var sameAlternative := KeyOf(Alternative(delta, suffix, a)) == KeyOf(Alternative(delta, suffix, b));
    var sameContradiction := KeyOf(Contradiction(delta, suffix, a)) == KeyOf(Contradiction(delta, suffix, b));
    && KeyOf(Alternative(delta, suffix, a)) != KeyOf(Contradiction(delta, suffix, b))
    && (sameAlternative || sameContradiction ==> KeyOf(a) == KeyOf(b) && a.value.statement == b.value.statement)
  }

  /** The generated ids are fresh. */
  ghost predicate FreshIds(base: Plan, current: Plan, delta: Delta, suffix: Suffix) {
    && (forall a, b :: Split(base, current, delta, a) && b in delta.operations ==> FreshAgainst(delta, suffix, a, b))
    && (forall a, b :: Split(base, current, delta, a) && Split(base, current, delta, b) ==>
      FreshTogether(delta, suffix, a, b))
  }

  /** The contradiction the rebase records is there and blocks. */
  lemma ContradictionBlocks(k: Knowledge, delta: Delta, suffix: Suffix, op: Operation)
    requires op.UpsertKnowledge? && Present(k, Decisions, Contradiction(delta, suffix, op).value)
    ensures Blocked(k)
  {
    var value := Contradiction(delta, suffix, op).value;
    var item :| item in At(k, Decisions) && item.active && item.id == value.id && SameContent(item, NewItem(value, 0));
    assert Blocks(item);
  }

  /** `other` contributes the same statement to the same item. */
  predicate SameContribution(other: Operation, op: Operation)
    requires op.UpsertKnowledge?
  {
    other.UpsertKnowledge? && KeyOf(other) == KeyOf(op) && other.value.statement == op.value.statement
  }

  /** The item holds all of what the operation contributes, under another id. */
  predicate HoldsContribution(item: Item, other: Operation) {
    && other.UpsertKnowledge?
    && item.statement == Trim(other.value.statement) && item.provenance == other.value.provenance
    && item.blocksProgress == other.value.blocksProgress && item.dependsOn == other.value.dependsOn
  }

  /** The contribution stands under the id made up for it; where the delta contributes one statement twice, one of the
      two does. */
  ghost predicate AlternativeThere(k: Knowledge, delta: Delta, op: Operation, id: Id)
    requires op.UpsertKnowledge?
  {
    exists item, other :: item in At(k, op.section) && item.active && item.id == id
      && other in delta.operations && SameContribution(other, op) && HoldsContribution(item, other)
  }

  lemma UpsertsStayUpserts(base: Plan, current: Plan, delta: Delta, suffix: Suffix, ops: seq<Operation>)
    requires UpsertsOnly(delta.operations) && Preserved(base, current, delta, suffix, delta.operations) == Ok(ops)
    ensures UpsertsOnly(ops)
  {
    PreservedOrigins(base, current, delta, suffix, delta.operations);
  }

  /** The items of the section under that id are still there, in place and unchanged. */
  predicate SameItemsUnder(before: Knowledge, after: Knowledge, s: Section, id: Id) {
    forall i :: 0 <= i < |At(before, s)| && At(before, s)[i].id == id ==>
      i < |At(after, s)| && At(after, s)[i] == At(before, s)[i]
  }

  /** An upsert-only delta that lost a race: the concurrent item stays, the contribution stands beside it under an id
      of its own, and the contradiction is on record, open and blocking. */
  lemma RebaseKeepsBoth(base: Plan, current: Plan, delta: Delta, suffix: Suffix, now: int, q: Plan, op: Operation)
    requires UpsertsOnly(delta.operations) && delta.baseRevision != current.revision
    requires Rebased(base, current, delta, suffix).Ok?
    requires ApplyDelta(current, Rebased(base, current, delta, suffix).value, now) == Ok(q)
    requires FreshIds(base, current, delta, suffix)
    requires op in delta.operations && Overlaps(base, current, op)
    ensures SameItemsUnder(current.knowledge, q.knowledge, op.section, op.value.id)
    ensures AlternativeThere(q.knowledge, delta, op, AlternativeId(delta, suffix, op))
    ensures Present(q.knowledge, Decisions, Contradiction(delta, suffix, op).value)
    ensures Blocked(q.knowledge)
  {
    hide Overlaps, PlanOk, ApplyOperations, NothingLost, DeriveState, FreshIds, Present, AlternativeThere,
      SameItemsUnder, AlternativeId,
      Contradiction, Blocked, Preserved, Trim;
    var ops := Preserved(base, current, delta, suffix, delta.operations).value;
    UpsertsStayUpserts(base, current, delta, suffix, ops);
    CurrentItemStays(base, current, delta, suffix, now, q, op, ops, RebasedReason(base, current, delta));
    AlternativeStands(base, current, delta, suffix, DraftOf(current), op, ops, current.revision + 1);
    ContradictionStands(base, current, delta, suffix, DraftOf(current), op, ops, current.revision + 1);
    ContradictionBlocks(q.knowledge, delta, suffix, op);
  }

  lemma CurrentItemStays(base: Plan, current: Plan, delta: Delta, suffix: Suffix, now: int, q: Plan, op: Operation,
        ops: seq<Operation>, reason: string)
    requires UpsertsOnly(delta.operations) && delta.baseRevision != current.revision
    requires Preserved(base, current, delta, suffix, delta.operations) == Ok(ops) && UpsertsOnly(ops)
    requires ApplyDelta(current, Delta(delta.planId, current.revision, ops, reason), now) == Ok(q)
    requires FreshIds(base, current, delta, suffix)
    requires op in delta.operations && Overlaps(base, current, op)
    ensures SameItemsUnder(current.knowledge, q.knowledge, op.section, op.value.id)
  {
    hide PlanOk, ApplyOperations, DeriveState, Dependent;
    DeltaLosesNothing(current, Delta(delta.planId, current.revision, ops, reason), now, q);
    NotOwnKey(base, current, delta, suffix, op, ops);
    forall item: Item
      ensures !Dependent(current.knowledge, ops, item)
    {
      NothingSuperseded(current.knowledge, ops, item);
    }
  }

  lemma NothingSuperseded(k: Knowledge, ops: seq<Operation>, item: Item)
    requires UpsertsOnly(ops)
    ensures !Dependent(k, ops, item)
  {
    assert SupersededIds(ops) == {};
  }

  lemma NotOwnKey(base: Plan, current: Plan, delta: Delta, suffix: Suffix, op: Operation, ops: seq<Operation>)
    requires Preserved(base, current, delta, suffix, delta.operations) == Ok(ops)
    requires FreshIds(base, current, delta, suffix)
    requires op in delta.operations && op.UpsertKnowledge? && Overlaps(base, current, op)
    ensures !OwnKey(ops, op.section, op.value.id)
  {
    hide Alternative, Contradiction, Changed;
    PreservedOrigins(base, current, delta, suffix, delta.operations);
    forall other | other in ops
      ensures KeyOf(other) != KeyOf(op)
    {
      var original :| original in delta.operations && ComesFrom(base, current, delta, suffix, other, original);
      if Overlaps(base, current, original) {
        assert Split(base, current, delta, original) && FreshAgainst(delta, suffix, original, op);
      }
    }
  }

  /** The write that decides under the alternative's key carries one of the contributions of that statement. */
  lemma AlternativeKeyDecides(base: Plan, current: Plan, delta: Delta, suffix: Suffix, op: Operation, last: Operation,
        original: Operation)
    requires FreshIds(base, current, delta, suffix) && UpsertsOnly(delta.operations)
    requires op in delta.operations && original in delta.operations && Overlaps(base, current, op)
    requires ComesFrom(base, current, delta, suffix, last, original)
    requires KeyOf(last) == KeyOf(Alternative(delta, suffix, op))
    ensures last.UpsertKnowledge? && last.section == op.section
    ensures SameContribution(original, op)
    ensures last.value == original.value.(id := AlternativeId(delta, suffix, op))
  {
    hide Overlaps, AlternativeId, ContradictionId, Digits;
    assert Split(base, current, delta, op) && FreshAgainst(delta, suffix, op, original);
    if Overlaps(base, current, original) {
      assert Split(base, current, delta, original);
      assert FreshTogether(delta, suffix, op, original) && FreshTogether(delta, suffix, original, op);
    }
  }

  /** The write that decides under the contradiction's key is that contradiction. */
  lemma ContradictionKeyDecides(base: Plan, current: Plan, delta: Delta, suffix: Suffix, op: Operation,
        last: Operation, original: Operation)
    requires FreshIds(base, current, delta, suffix) && UpsertsOnly(delta.operations)
    requires op in delta.operations && original in delta.operations && Overlaps(base, current, op)
    requires ComesFrom(base, current, delta, suffix, last, original)
    requires KeyOf(last) == KeyOf(Contradiction(delta, suffix, op))
    ensures last == Contradiction(delta, suffix, op)
  {
    hide Overlaps, Digits;
    assert Split(base, current, delta, op) && FreshAgainst(delta, suffix, op, original);
    if Overlaps(base, current, original) {
      assert Split(base, current, delta, original);
      assert FreshTogether(delta, suffix, op, original) && FreshTogether(delta, suffix, original, op);
    }
  }

  lemma AlternativeStands(base: Plan, current: Plan, delta: Delta, suffix: Suffix, start: Draft, op: Operation,
        ops: seq<Operation>, revision: nat)
    requires Preserved(base, current, delta, suffix, delta.operations) == Ok(ops) && UpsertsOnly(ops)
    requires UpsertsOnly(delta.operations)
    requires ApplyOperations(current.target, start, ops, revision).Ok?
    requires FreshIds(base, current, delta, suffix)
    requires op in delta.operations && Overlaps(base, current, op)
    ensures AlternativeThere(ApplyOperations(current.target, start, ops, revision).value.knowledge, delta, op,
      AlternativeId(delta, suffix, op))
  {
    hide Overlaps, ApplyOperations, Preserved, FreshIds, Alternative, Contradiction, AlternativeId, ComesFrom, Trim,
      Present, KeyOf;
    PreservedOrigins(base, current, delta, suffix, delta.operations);
    OneOfTheUpserts(delta.operations, op);
    var alternative := Alternative(delta, suffix, op);
    UpsertsLeavePresent(current.target, start, ops, revision, alternative);
    var k := ApplyOperations(current.target, start, ops, revision).value.knowledge;
    var last :| last in ops && KeyOf(last) == KeyOf(alternative) && Present(k, last.section, last.value);
    var original :| original in delta.operations && ComesFrom(base, current, delta, suffix, last, original);
    AlternativeKeyDecides(base, current, delta, suffix, op, last, original);
    PresentIsThere(k, delta, op, last.value, original);
  }

  lemma OneOfTheUpserts(ops: seq<Operation>, op: Operation)
    requires UpsertsOnly(ops) && op in ops
    ensures op.UpsertKnowledge?
  {
  }

  lemma PresentIsThere(k: Knowledge, delta: Delta, op: Operation, value: ItemInput, original: Operation)
    requires op.UpsertKnowledge? && original in delta.operations && SameContribution(original, op)
    requires value == original.value.(id := value.id) && Present(k, op.section, value)
    ensures AlternativeThere(k, delta, op, value.id)
  {
    hide Trim;
    var item :| item in At(k, op.section) && item.active && item.id == value.id && SameContent(item, NewItem(value, 0));
    assert HoldsContribution(item, original);
  }

  lemma ContradictionStands(base: Plan, current: Plan, delta: Delta, suffix: Suffix, start: Draft, op: Operation,
        ops: seq<Operation>, revision: nat)
    requires Preserved(base, current, delta, suffix, delta.operations) == Ok(ops) && UpsertsOnly(ops)
    requires UpsertsOnly(delta.operations)
    requires ApplyOperations(current.target, start, ops, revision).Ok?
    requires FreshIds(base, current, delta, suffix)
    requires op in delta.operations && Overlaps(base, current, op)
    ensures Present(ApplyOperations(current.target, start, ops, revision).value.knowledge, Decisions,
      Contradiction(delta, suffix, op).value)
  {
    hide Overlaps, ApplyOperations, Preserved, FreshIds, Alternative, ContradictionId, AlternativeId, ComesFrom,
      Present, KeyOf, Digits;
    PreservedOrigins(base, current, delta, suffix, delta.operations);
    OneOfTheUpserts(delta.operations, op);
    var contradiction := Contradiction(delta, suffix, op);
    UpsertsLeavePresent(current.target, start, ops, revision, contradiction);
    var k := ApplyOperations(current.target, start, ops, revision).value.knowledge;
    var last :| last in ops && KeyOf(last) == KeyOf(contradiction) && Present(k, last.section, last.value);
    var original :| original in delta.operations && ComesFrom(base, current, delta, suffix, last, original);
    ContradictionKeyDecides(base, current, delta, suffix, op, last, original);
  }

  // Any delta.

  /** The rebase made this key up. */
  ghost predicate Generated(base: Plan, current: Plan, delta: Delta, suffix: Suffix, s: Section, id: Id) {
    exists op :: Split(base, current, delta, op)
      && (KeyOf(Alternative(delta, suffix, op)) == KnowledgeKey(s, id) ||
        KeyOf(Contradiction(delta, suffix, op)) == KnowledgeKey(s, id))
  }

  lemma ChangedKeyNotOwn(base: Plan, current: Plan, delta: Delta, suffix: Suffix, ops: seq<Operation>, s: Section,
        id: Id)
    requires Preserved(base, current, delta, suffix, delta.operations) == Ok(ops)
    requires Changed(base, current, KnowledgeKey(s, id)) && !Generated(base, current, delta, suffix, s, id)
    ensures !OwnKey(ops, s, id)
  {
    hide Changed, Alternative, Contradiction, Preserved;
    PreservedOrigins(base, current, delta, suffix, delta.operations);
    forall op | op in ops
      ensures KeyOf(op) != KnowledgeKey(s, id)
    {
      var original :| original in delta.operations && ComesFrom(base, current, delta, suffix, op, original);
      if Overlaps(base, current, original) {
        assert Split(base, current, delta, original);
      }
    }
  }

  /** Whatever a stale delta contains: an item under a key that changed since its base is, after the merge, still there
      and unchanged, unless it depends on something the delta supersedes. */
  lemma ConcurrentUpdateSurvives(base: Plan, current: Plan, delta: Delta, suffix: Suffix, d: Delta, now: int, q: Plan,
        s: Section, i: nat)
    requires delta.baseRevision != current.revision && Rebased(base, current, delta, suffix) == Ok(d)
    requires ApplyDelta(current, d, now) == Ok(q)
    requires i < |At(current.knowledge, s)| && var id := At(current.knowledge, s)[i].id;
      Changed(base, current, KnowledgeKey(s, id)) && !Generated(base, current, delta, suffix, s, id)
    ensures i < |At(q.knowledge, s)|
    ensures Dependent(current.knowledge, d.operations, At(current.knowledge, s)[i]) ||
      At(q.knowledge, s)[i] == At(current.knowledge, s)[i]
  {
    hide Changed, Generated, Preserved, ApplyDelta, Dependent, OwnKey;
    DeltaLosesNothing(current, d, now, q);
    ChangedKeyNotOwn(base, current, delta, suffix, d.operations, s, At(current.knowledge, s)[i].id);
  }

}
