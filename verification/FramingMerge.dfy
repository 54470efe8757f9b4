/** What becomes of a stale delta of upserts in the journal: when the store accepts the merged plan, and what holds of
    it then. */
module FramingMerge {
  import opened Wrappers
  import opened FramingKnowledge
  import opened FramingPlan
  import opened Texts
  import opened FramingRun
  import opened FramingSupersession
  import opened FramingViews
  import opened FramingSoundness
  import opened FramingRebase
  import opened FramingService
  import Decimal

  // What the rebased operations write.

  lemma {:induction false} WrittenIsThere(ops: seq<Operation>, s: Section, id: Id)
    requires Written(ops, s, id).Some?
    ensures UpsertKnowledge(s, Written(ops, s, id).value) in ops && Written(ops, s, id).value.id == id
  {
    var n := |ops| - 1;
    if Written(ops, s, id) == Written(ops[..n], s, id) && Written(ops[..n], s, id).Some? {
      WrittenIsThere(ops[..n], s, id);
      assert forall op :: op in ops[..n] ==> op in ops;
    }
  }

  lemma {:induction false} UpsertIsWritten(ops: seq<Operation>, op: Operation)
    requires op in ops && op.UpsertKnowledge?
    ensures Written(ops, op.section, op.value.id).Some?
  {
    var n := |ops| - 1;
    if op in ops[..n] {
      UpsertIsWritten(ops[..n], op);
    } else {
      assert ops == ops[..n] + [ops[n]];
    }
  }

  ghost predicate Upserts(ops: seq<Operation>, id: Id) {
    exists op :: op in ops && op.UpsertKnowledge? && op.value.id == id
  }

  /** Without supersessions the known ids are the active and the written ones. */
  lemma KnownByUpsertsOnly(k: Knowledge, ops: seq<Operation>, id: Id)
    requires UpsertsOnly(ops)
    ensures KnownId(k, ops, id) <==> ActiveId(k, id) || Upserts(ops, id)
  {
    hide UpsertsOnly, ActiveId, ActiveKey, Written, Known;
    NoneSuperseded(ops);
    ActiveIdByKey(k, id);
    if s :| Known(k, ops, s, id) {
      KnownByUpserts(k, ops, s, id);
      if Written(ops, s, id).Some? {
        WrittenIsThere(ops, s, id);
      }
    }
    if s :| ActiveKey(k, s, id) {
      KnownByUpserts(k, ops, s, id);
    }
    if op :| op in ops && op.UpsertKnowledge? && op.value.id == id {
      UpsertIsWritten(ops, op);
      KnownByUpserts(k, ops, op.section, id);
    }
  }

  lemma NoneSuperseded(ops: seq<Operation>)
    requires UpsertsOnly(ops)
    ensures SupersededIds(ops) == {} && Separated(ops)
  {
    forall i | 0 <= i < |ops|
      ensures !Supersedes(ops[i])
    {
      assert ops[i] in ops;
    }
  }

  lemma {:induction false} ProbeUntouched(probe: Probe, ops: seq<Operation>)
    requires UpsertsOnly(ops)
    ensures LastProbe(probe, ops) == probe
  {
    if ops != [] {
      assert ops[|ops| - 1] in ops;
      ProbeUntouched(probe, ops[..|ops| - 1]);
    }
  }

  lemma {:induction false} UpsertsRebase(base: Plan, current: Plan, delta: Delta, suffix: Suffix, ops: seq<Operation>)
    requires UpsertsOnly(ops)
    ensures Preserved(base, current, delta, suffix, ops).Ok?
  {
    hide Overlaps;
    if ops != [] {
      assert ops[|ops| - 1] in ops;
      UpsertsRebase(base, current, delta, suffix, ops[..|ops| - 1]);
    }
  }

  /** Under the key of a contradiction stands that contradiction. */
  lemma ContradictionWritten(base: Plan, current: Plan, delta: Delta, suffix: Suffix, op: Operation,
        ops: seq<Operation>)
    requires UpsertsOnly(delta.operations) && FreshIds(base, current, delta, suffix) && Split(base, current, delta, op)
    requires Preserved(base, current, delta, suffix, delta.operations) == Ok(ops)
    ensures Written(ops, Decisions, ContradictionId(delta, suffix, op)) == Some(Contradiction(delta, suffix, op).value)
    ensures Upserts(ops, AlternativeId(delta, suffix, op))
  {
    hide Overlaps, FreshIds, ContradictionId, AlternativeId, ComesFrom, Written, Preserved;
    var id := ContradictionId(delta, suffix, op);
    var contradiction := Contradiction(delta, suffix, op);
    PreservedOrigins(base, current, delta, suffix, delta.operations);
    UpsertIsWritten(ops, contradiction);
    WrittenIsThere(ops, Decisions, id);
    var last := UpsertKnowledge(Decisions, Written(ops, Decisions, id).value);
    var original :| original in delta.operations && ComesFrom(base, current, delta, suffix, last, original);
    ContradictionKeyDecides(base, current, delta, suffix, op, last, original);
    assert Alternative(delta, suffix, op) in ops;
  }

  // When the merged plan meets the contract.

  /** The key of a contradiction the rebase records. */
  ghost predicate ContradictionKey(base: Plan, current: Plan, delta: Delta, suffix: Suffix, s: Section, id: Id) {
    s == Decisions && exists op :: Split(base, current, delta, op) && ContradictionId(delta, suffix, op) == id
  }

  /** The contested id itself is still active, or comes back with the operations. */
  ghost predicate ContestedKnown(base: Plan, current: Plan, delta: Delta, ops: seq<Operation>) {
    forall op :: Split(base, current, delta, op) ==>
      ActiveId(current.knowledge, op.value.id) || Upserts(ops, op.value.id)
  }

  /** What is written besides contradictions depends on active or written ids only. */
  ghost predicate OthersKnown(base: Plan, current: Plan, delta: Delta, suffix: Suffix, ops: seq<Operation>) {
    forall s, id :: Written(ops, s, id).Some? && !ContradictionKey(base, current, delta, suffix, s, id) ==>
      NeedsKnown(current.knowledge, ops, Written(ops, s, id).value)
  }

  ghost predicate MergeFits(base: Plan, current: Plan, delta: Delta, suffix: Suffix, ops: seq<Operation>) {
    && ContestedKnown(base, current, delta, ops)
    && OthersKnown(base, current, delta, suffix, ops)
    && OneSectionEach(current.knowledge, ops)
    && WrittenEvidenceFits(ops, current.probe)
  }

  lemma ContestedDependencies(base: Plan, current: Plan, delta: Delta, suffix: Suffix, ops: seq<Operation>)
    requires UpsertsOnly(delta.operations) && FreshIds(base, current, delta, suffix)
    requires Preserved(base, current, delta, suffix, delta.operations) == Ok(ops)
    ensures DependenciesKnown(current.knowledge, ops) <==>
      (ContestedKnown(base, current, delta, ops) && OthersKnown(base, current, delta, suffix, ops))
  {
    hide Overlaps, FreshIds, AlternativeId, ContradictionId, KnownId, ActiveId, Written, Upserts, Preserved,
      UpsertsOnly;
    var k := current.knowledge;
    UpsertsStayUpserts(base, current, delta, suffix, ops);
    forall op | Split(base, current, delta, op)
      ensures Written(ops, Decisions, ContradictionId(delta, suffix, op)) ==
        Some(Contradiction(delta, suffix, op).value)
      ensures NeedsKnown(k, ops, Contradiction(delta, suffix, op).value) <==>
        ActiveId(k, op.value.id) || Upserts(ops, op.value.id)
    {
      ContradictionWritten(base, current, delta, suffix, op, ops);
      KnownByUpsertsOnly(k, ops, op.value.id);
      KnownByUpsertsOnly(k, ops, AlternativeId(delta, suffix, op));
      assert Needs(Contradiction(delta, suffix, op).value) == [op.value.id, AlternativeId(delta, suffix, op)];
    }
  }

  /** The merged plan meets the contract exactly when the clock did not run backwards, every contested id is still
      there, and the rest of what is written fits. */
  lemma MergedMeetsContract(base: Plan, current: Plan, delta: Delta, suffix: Suffix, d: Delta, now: int)
    requires UpsertsOnly(delta.operations) && delta.baseRevision != current.revision
    requires Rebased(base, current, delta, suffix) == Ok(d) && FreshIds(base, current, delta, suffix)
    ensures var r := ApplyDelta(current, d, now);
      && (r.Ok? <==> OpenTo(current, d) && AllApply(current.target, current.knowledge, d.operations))
      && (r.Ok? ==>
        (PlanOk(r.value) <==> current.createdAt <= now && MergeFits(base, current, delta, suffix, d.operations)))
  {
    hide PlanOk, FreshIds, ApplyDelta, AllApply, Preserved, DependenciesKnown, ContestedKnown, OthersKnown,
      OneSectionEach, WrittenEvidenceFits, OldEvidenceFits, UpsertsOnly, Separated;
    UpsertsStayUpserts(base, current, delta, suffix, d.operations);
    NoneSuperseded(d.operations);
    ProbeUntouched(current.probe, d.operations);
    SeparatedMeetsContract(current, d, now);
    ContestedDependencies(base, current, delta, suffix, d.operations);
    if OpenTo(current, d) {
      InputParts(current);
      CurrentOldEvidenceFits(current.knowledge, d.operations, current.probe);
    }
  }

  /** Whoever contributes to an id that was retired meanwhile, and not back in the delta, loses all of it: the merged
      plan breaks the contract, so no store keeps it. */
  lemma RetiredMeanwhileUnsound(base: Plan, current: Plan, delta: Delta, suffix: Suffix, d: Delta, now: int, q: Plan,
        op: Operation)
    requires UpsertsOnly(delta.operations) && delta.baseRevision != current.revision
    requires Rebased(base, current, delta, suffix) == Ok(d) && FreshIds(base, current, delta, suffix)
    requires ApplyDelta(current, d, now) == Ok(q) && Split(base, current, delta, op)
    requires !ActiveId(current.knowledge, op.value.id) && !Upserts(d.operations, op.value.id)
    ensures !PlanOk(q)
  {
    hide PlanOk, FreshIds, ApplyDelta, ActiveId, Upserts, Split, OthersKnown;
    MergedMeetsContract(base, current, delta, suffix, d, now);
  }

  // When the rebased delta is accepted.

  /** Twelve hexadecimal digits of a hash. */
  ghost predicate HexSuffix(suffix: Suffix) {
    forall id, n, key, statement :: |suffix(id, n, key, statement)| == 12 && Hexadecimal(suffix(id, n, key, statement))
  }

  lemma AlternativeOk(delta: Delta, suffix: Suffix, op: Operation)
    requires HexSuffix(suffix) && op.UpsertKnowledge? && InputOk(op.value)
    ensures Identifier(AlternativeId(delta, suffix, op)) && Identifier(ContradictionId(delta, suffix, op))
    ensures InputOk(Alternative(delta, suffix, op).value)
    ensures ValidItem(NewItem(op.value, 0)) ==> ValidItem(NewItem(Alternative(delta, suffix, op).value, 0))
  {
    hide TextOk, IdentifiersOnce, ProvenanceOk, Trim;
    var tail := SuffixOf(delta, suffix, op);
    assert |tail| == 12 && Hexadecimal(tail);
    assert Identifier(op.value.id);
  }

  lemma ContradictionOk(base: Plan, current: Plan, delta: Delta, suffix: Suffix, op: Operation)
    requires HexSuffix(suffix) && FreshIds(base, current, delta, suffix) && Split(base, current, delta, op)
    requires InputOk(op.value) && delta.baseRevision <= Decimal.MAX_SAFE_INTEGER
    ensures InputOk(Contradiction(delta, suffix, op).value)
    ensures ValidItem(NewItem(Contradiction(delta, suffix, op).value, 0))
  {
    var value := Contradiction(delta, suffix, op).value;
    var id, other := op.value.id, AlternativeId(delta, suffix, op);
    assert FreshAgainst(delta, suffix, op, op);
    assert id != other;
    assert value.dependsOn == Some([id, other]);
    AlternativeOk(delta, suffix, op);
    assert Identifier(id) && |id| <= 256;
    ContradictionTexts(delta, suffix, op);
    hide Trim, Identifier, AlternativeId, ContradictionId, Contradiction, FreshIds, Overlaps;
    assert Contradiction(delta, suffix, op).value.id == ContradictionId(delta, suffix, op) by {
      ContradictionShape(delta, suffix, op);
    }
    ContradictionShape(delta, suffix, op);
  }

  lemma ContradictionShape(delta: Delta, suffix: Suffix, op: Operation)
    requires op.UpsertKnowledge?
    ensures var value := Contradiction(delta, suffix, op).value;
      && value.id == ContradictionId(delta, suffix, op) && value.provenance.kind.Open?
      && value.dependsOn == Some([op.value.id, AlternativeId(delta, suffix, op)])
  {
    hide AlternativeId, ContradictionId;
  }

  lemma ContradictionTexts(delta: Delta, suffix: Suffix, op: Operation)
    requires op.UpsertKnowledge? && |op.value.id| <= 256 && delta.baseRevision <= Decimal.MAX_SAFE_INTEGER
    ensures var value := Contradiction(delta, suffix, op).value;
      && TextOk(value.statement, 4000) && Trim(value.statement) == value.statement &&
        TextOk(value.provenance.reference, 512)
  {
    hide AlternativeId, ContradictionId, Trim;
    var value := Contradiction(delta, suffix, op).value;
    Decimal.SafeNumber(delta.baseRevision);
    assert value.statement[0] == 'T' && value.statement[|value.statement| - 1] == '.';
    assert value.provenance.reference[0] == 'c';
    assert Decimal.IsDigit(value.provenance.reference[|value.provenance.reference| - 1]);
    NothingToTrim(value.statement);
    NothingToTrim(value.provenance.reference);
  }

  /** How many operations are contested. */
  function Contested(base: Plan, current: Plan, ops: seq<Operation>): nat {
    if ops == [] then 0
    else Contested(base, current, ops[..|ops| - 1]) + if Overlaps(base, current, ops[|ops| - 1]) then 1 else 0
  }

  lemma {:induction false} ContestedDoubled(base: Plan, current: Plan, delta: Delta, suffix: Suffix,
        ops: seq<Operation>)
    requires Preserved(base, current, delta, suffix, ops).Ok?
    ensures |Preserved(base, current, delta, suffix, ops).value| == |ops| + Contested(base, current, ops)
  {
    hide Overlaps;
    if ops != [] {
      ContestedDoubled(base, current, delta, suffix, ops[..|ops| - 1]);
    }
  }

  /** Each rebased operation has the form it needs, and applies if the original ones do. */
  lemma RebasedOperation(base: Plan, current: Plan, delta: Delta, suffix: Suffix, ops: seq<Operation>, op: Operation)
    requires UpsertsOnly(delta.operations) && DeltaOk(delta) && delta.baseRevision <= Decimal.MAX_SAFE_INTEGER
    requires HexSuffix(suffix) && FreshIds(base, current, delta, suffix)
    requires Preserved(base, current, delta, suffix, delta.operations) == Ok(ops) && op in ops
    ensures op.UpsertKnowledge? && OperationOk(op)
    ensures ItemsValidIn(delta.operations) ==> ValidItem(NewItem(op.value, 0))
  {
    hide FreshIds, HexSuffix, Alternative, Contradiction, InputOk, ValidItem, Overlaps, NewItem, Identifier, TextOk;
    PreservedOrigins(base, current, delta, suffix, delta.operations);
    var original :| original in delta.operations && ComesFrom(base, current, delta, suffix, op, original);
    assert OperationOk(original) && original.UpsertKnowledge?;
    if Overlaps(base, current, original) {
      AlternativeOk(delta, suffix, original);
      ContradictionOk(base, current, delta, suffix, original);
      AlternativeIsUpsert(delta, suffix, original);
    }
  }

  lemma AlternativeIsUpsert(delta: Delta, suffix: Suffix, op: Operation)
    requires op.UpsertKnowledge?
    ensures Alternative(delta, suffix, op).UpsertKnowledge? && Contradiction(delta, suffix, op).UpsertKnowledge?
  {
  }

  ghost predicate ItemsValidIn(ops: seq<Operation>) {
    forall op :: op in ops && op.UpsertKnowledge? ==> ValidItem(NewItem(op.value, 0))
  }

  /** A well-formed stale delta of upserts is accepted on an open plan exactly when what it becomes is not too long:
      each contested operation counts twice, and the reason grows by a sentence once anything is contested. */
  lemma RebasedAccepted(base: Plan, current: Plan, delta: Delta, suffix: Suffix, d: Delta)
    requires UpsertsOnly(delta.operations) && DeltaOk(delta) && delta.baseRevision <= Decimal.MAX_SAFE_INTEGER
    requires HexSuffix(suffix) && FreshIds(base, current, delta, suffix)
    requires delta.baseRevision != current.revision && Rebased(base, current, delta, suffix) == Ok(d)
    requires PlanOk(current) && current.publication.None? && current.groundedPlan.None? && delta.planId == current.id
    ensures OpenTo(current, d) <==>
      (|delta.operations| + Contested(base, current, delta.operations) <= 128
      && |RebasedReason(base, current, delta)| <= 512)
    ensures ItemsValidIn(delta.operations) ==> AllApply(current.target, current.knowledge, d.operations)
  {
    hide PlanOk, FreshIds, HexSuffix, OperationOk, UpsertsOnly, Preserved, ValidItem, NewItem, RebasedReason, Contested,
      Identifier, TextOk;
    var ops := d.operations;
    ContestedDoubled(base, current, delta, suffix, delta.operations);
    forall op | op in ops
      ensures op.UpsertKnowledge? && OperationOk(op)
      ensures ItemsValidIn(delta.operations) ==> ValidItem(NewItem(op.value, 0))
    {
      RebasedOperation(base, current, delta, suffix, ops, op);
    }
    CurrentParts(current);
    ReasonGrows(base, current, delta);
    if ItemsValidIn(delta.operations) {
      forall n | 0 <= n < |ops|
        ensures Applies(current.target, current.knowledge, ops, n)
      {
        assert ops[n] in ops;
      }
    }
  }

  lemma CurrentParts(p: Plan)
    requires PlanOk(p)
    ensures Identifier(p.id) && p.revision >= 1
  {
  }

  lemma ReasonGrows(base: Plan, current: Plan, delta: Delta)
    requires TextOk(delta.reason, 512)
    ensures TextOk(RebasedReason(base, current, delta), 512) <==> |RebasedReason(base, current, delta)| <= 512
  {
    hide Overlaps;
    StillReadable(delta.reason);
  }

  lemma StillReadable(reason: string)
    requires Trim(reason) != ""
    ensures Trim(reason + PRESERVED) != ""
  {
    hide Blank;
    var s := reason + PRESERVED;
    assert !Blank('.') by {
      DotIsVisible();
    }
    assert s[|s| - 1] == '.';
    SomethingLeft(s);
  }

  lemma DotIsVisible()
    ensures !Blank('.')
  {
  }

  // In the journal.

  /** All that a merge of upserts preserves, for each contested operation. */
  ghost predicate BothKept(current: Plan, q: Plan, delta: Delta, suffix: Suffix, op: Operation)
    requires op.UpsertKnowledge?
  {
    && SameItemsUnder(current.knowledge, q.knowledge, op.section, op.value.id)
    && AlternativeThere(q.knowledge, delta, op, AlternativeId(delta, suffix, op))
    && Present(q.knowledge, Decisions, Contradiction(delta, suffix, op).value)
  }

  ghost predicate AllKept(base: Plan, current: Plan, q: Plan, delta: Delta, suffix: Suffix) {
    forall op :: Split(base, current, delta, op) ==> BothKept(current, q, delta, suffix, op)
  }

  /** What the journal answers to a stale delta of upserts that reads revision `read + 1`: it is saved with both sides
      kept, or refused as unsound, and which of the two can be told from the plan and the rebased operations. */
  lemma StaleUpsertsAnswered(h: seq<Plan>, read: nat, delta: Delta, suffix: Suffix, now: int)
    requires Stored(h) && read < |h| && 1 <= delta.baseRevision <= |h| && delta.baseRevision != read + 1
    requires UpsertsOnly(delta.operations) && FreshIds(h[delta.baseRevision - 1], h[read], delta, suffix)
    ensures var base, current, r := h[delta.baseRevision - 1], h[read], AnswerAt(h, read, delta, suffix, now);
      && Rebased(base, current, delta, suffix).Ok?
      && var d := Rebased(base, current, delta, suffix).value;
         var accepted := OpenTo(current, d) && AllApply(current.target, current.knowledge, d.operations);
         var fits := current.createdAt <= now && MergeFits(base, current, delta, suffix, d.operations);
         && (r.Ok? <==> accepted && fits)
         && (r == Err(SaveRefused(Unsound)) <==> accepted && !fits)
         && (r.Ok? ==> AllKept(base, current, r.value, delta, suffix))
  {
    hide PlanOk, FreshIds, ApplyDelta, AllApply, Preserved, MergeFits, OpenTo, UpsertsOnly, BothKept, Overlaps;
    var base, current := h[delta.baseRevision - 1], h[read];
    UpsertsRebase(base, current, delta, suffix, delta.operations);
    var d := Rebased(base, current, delta, suffix).value;
    MergedMeetsContract(base, current, delta, suffix, d, now);
    var r := ApplyDelta(current, d, now);
    if r.Ok? {
      forall op | Split(base, current, delta, op)
        ensures BothKept(current, r.value, delta, suffix, op)
      {
        SplitKept(base, current, delta, suffix, now, r.value, op);
      }
    }
  }

  lemma SplitKept(base: Plan, current: Plan, delta: Delta, suffix: Suffix, now: int, q: Plan, op: Operation)
    requires UpsertsOnly(delta.operations) && delta.baseRevision != current.revision
    requires Rebased(base, current, delta, suffix).Ok? && Split(base, current, delta, op)
    requires ApplyDelta(current, Rebased(base, current, delta, suffix).value, now) == Ok(q)
    requires FreshIds(base, current, delta, suffix)
    ensures BothKept(current, q, delta, suffix, op)
  {
    hide FreshIds, ApplyDelta, Preserved, SameItemsUnder, AlternativeThere, Present, Overlaps;
    RebaseKeepsBoth(base, current, delta, suffix, now, q, op);
  }

  /** Operation `i` is the first contested one that is no upsert. */
  predicate FirstConflict(base: Plan, current: Plan, ops: seq<Operation>, i: int) {
    && 0 <= i < |ops| && Overlaps(base, current, ops[i]) && !ops[i].UpsertKnowledge?
    && forall j :: 0 <= j < i && Overlaps(base, current, ops[j]) ==> ops[j].UpsertKnowledge?
  }

  predicate OnlyUpsertsContested(base: Plan, current: Plan, ops: seq<Operation>) {
    forall op :: op in ops && Overlaps(base, current, op) ==> op.UpsertKnowledge?
  }

  /** The rebase fails exactly on a contested operation that is no upsert, and names the first. */
  lemma {:induction false} FirstConflictNamed(base: Plan, current: Plan, delta: Delta, suffix: Suffix,
        ops: seq<Operation>)
    ensures Preserved(base, current, delta, suffix, ops).Ok? <==> OnlyUpsertsContested(base, current, ops)
    ensures forall i :: FirstConflict(base, current, ops, i) ==>
      Preserved(base, current, delta, suffix, ops) == Err(ConflictOn(KeyOf(ops[i])))
  {
    hide Overlaps, KeyOf, Alternative, Contradiction;
    if ops != [] {
      var n := |ops| - 1;
      FirstConflictNamed(base, current, delta, suffix, ops[..n]);
      assert ops == ops[..n] + [ops[n]];
      forall i | FirstConflict(base, current, ops, i)
        ensures Preserved(base, current, delta, suffix, ops) == Err(ConflictOn(KeyOf(ops[i])))
      {
        if i < n {
          assert FirstConflict(base, current, ops[..n], i);
        } else {
          AllEarlierUpserts(base, current, ops, n);
        }
      }
    }
  }

  lemma AllEarlierUpserts(base: Plan, current: Plan, ops: seq<Operation>, n: nat)
    requires FirstConflict(base, current, ops, n)
    ensures OnlyUpsertsContested(base, current, ops[..n])
  {
    hide Overlaps;
  }

  /** Items under keys that changed since the base are there as they were, unless they depend on something the delta
      supersedes. */
  ghost predicate ConcurrentKept(base: Plan, current: Plan, q: Plan, delta: Delta, suffix: Suffix, d: Delta) {
    forall s, i :: 0 <= i < |At(current.knowledge, s)| ==> KeptAt(base, current, q, delta, suffix, d, s, i)
  }

  ghost predicate KeptAt(base: Plan, current: Plan, q: Plan, delta: Delta, suffix: Suffix, d: Delta, s: Section, i: nat)
    requires i < |At(current.knowledge, s)|
  {
    var item := At(current.knowledge, s)[i];
    Changed(base, current, KnowledgeKey(s, item.id)) && !Generated(base, current, delta, suffix, s, item.id) ==>
      i < |At(q.knowledge, s)| && (Dependent(current.knowledge, d.operations, item) || At(q.knowledge, s)[i] == item)
  }

  /** What the journal answers to any stale delta that reads revision `read + 1`. A contested operation that is no
      upsert conflicts, the first of them by its key. Otherwise the delta is saved, with what others wrote kept, or
      refused as unsound, and which of the two can be told from the plan and the rebased operations. */
  lemma StaleDeltaAnswered(h: seq<Plan>, read: nat, delta: Delta, suffix: Suffix, now: int)
    requires Stored(h) && read < |h| && 1 <= delta.baseRevision <= |h| && delta.baseRevision != read + 1
    ensures var base, current, r := h[delta.baseRevision - 1], h[read], AnswerAt(h, read, delta, suffix, now);
      && (Rebased(base, current, delta, suffix).Ok? <==> OnlyUpsertsContested(base, current, delta.operations))
      && (forall i :: FirstConflict(base, current, delta.operations, i) ==>
            r == Err(ConflictingKey(KeyOf(delta.operations[i]))))
      && (Rebased(base, current, delta, suffix).Ok? ==>
            var d := Rebased(base, current, delta, suffix).value;
            var accepted := OpenTo(current, d) && EachApplies(current.target, current.knowledge, d.operations);
            var fits := current.createdAt <= now
              && OperationsFit(current.knowledge, d.operations, LastProbe(current.probe, d.operations));
            && (r.Ok? <==> accepted && fits)
            && (r == Err(SaveRefused(Unsound)) <==> accepted && !fits)
            && (r.Ok? ==> ConcurrentKept(base, current, r.value, delta, suffix, d)))
  {
    hide PlanOk, ApplyDelta, EachApplies, OperationsFit, Preserved, OpenTo, Overlaps, KeyOf, KeptAt, FirstConflict,
      OnlyUpsertsContested, LastProbe;
    var base, current := h[delta.baseRevision - 1], h[read];
    FirstConflictNamed(base, current, delta, suffix, delta.operations);
    if Rebased(base, current, delta, suffix).Ok? {
      var d := Rebased(base, current, delta, suffix).value;
      DeltaMeetsContract(current, d, now);
      var r := ApplyDelta(current, d, now);
      if r.Ok? {
        forall s, i | 0 <= i < |At(current.knowledge, s)|
          ensures KeptAt(base, current, r.value, delta, suffix, d, s, i)
        {
          KeptThere(base, current, delta, suffix, d, now, r.value, s, i);
        }
      }
    }
  }

  lemma KeptThere(base: Plan, current: Plan, delta: Delta, suffix: Suffix, d: Delta, now: int, q: Plan, s: Section,
        i: nat)
    requires delta.baseRevision != current.revision && Rebased(base, current, delta, suffix) == Ok(d)
    requires ApplyDelta(current, d, now) == Ok(q) && i < |At(current.knowledge, s)|
    ensures KeptAt(base, current, q, delta, suffix, d, s, i)
  {
    hide ApplyDelta, Rebased, Changed, Generated, Dependent;
    var id := At(current.knowledge, s)[i].id;
    if Changed(base, current, KnowledgeKey(s, id)) && !Generated(base, current, delta, suffix, s, id) {
      ConcurrentUpdateSurvives(base, current, delta, suffix, d, now, q, s, i);
    }
  }

  /** From the merge on, as long as the contradiction is not superseded, no plan of the journal has a grounded
      stabilization. */
  lemma ContradictionHoldsGrounding(plans: seq<Plan>, i: nat, delta: Delta, suffix: Suffix, op: Operation)
      returns (n: nat)
    requires IsRun(plans) && i < |plans| && op.UpsertKnowledge?
    requires Present(plans[i].knowledge, Decisions, Contradiction(delta, suffix, op).value)
    ensures ActiveAt(plans[i].knowledge, Decisions, n)
    ensures plans[i].knowledge[Decisions][n].id == ContradictionId(delta, suffix, op)
    ensures forall k, j :: i <= k <= j < |plans| && ActiveAt(plans[j].knowledge, Decisions, n) ==>
      plans[k].groundedPlan.None?
  {
    hide IsRun, ContradictionId;
    var value := Contradiction(delta, suffix, op).value;
    var items := At(plans[i].knowledge, Decisions);
    var item :| item in items && item.active && item.id == value.id && SameContent(item, NewItem(value, 0));
    n :| 0 <= n < |items| && items[n] == item;
    forall k, j | i <= k <= j < |plans| && ActiveAt(plans[j].knowledge, Decisions, n)
      ensures plans[k].groundedPlan.None?
    {
      OpenDecisionHoldsGrounding(plans, i, k, j, n);
    }
  }

  // A contribution that is lost.

  function Claim(statement: string): ItemInput {
    ItemInput("a", statement, Provenance(HumanDecision, "r", None, None, None), None, None)
  }

  lemma ClaimIsValid(statement: string, revision: nat)
    requires statement == "s" || statement == "t"
    ensures InputOk(Claim(statement)) && ValidItem(NewItem(Claim(statement), revision))
  {
    hide Trim, Identifier;
    NothingToTrim(statement);
    NothingToTrim("r");
    PlainIdentifiers();
  }

  /** Late: `a` was introduced by revision 2 and retired by revision 3. */
  function LateDelta(reason: string): Delta {
    Delta("plan", 2, [UpsertKnowledge(IntentProblem, Claim("t"))], reason)
  }

  lemma RetiredJournal(target: Target, probe: Probe) returns (h: seq<Plan>)
    requires TargetOk(target) && ProbeOk(probe, target.projectId)
    ensures IsRun(h) && Stored(h) && |h| == 3
    ensures h[2].id == "plan" && h[2].publication.None? && h[2].groundedPlan.None?
    ensures Changed(h[1], h[2], KnowledgeKey(IntentProblem, "a")) && !ActiveId(h[2].knowledge, "a")
  {
    hide PlanOk, DeltaOk, InputOk, ApplyDelta, DeriveState, Next, Initial, NewItem, ValidItem, Addable, Added,
      EmptyKnowledge, IsRun, Identifier, Changed, ActiveId;
    var p := CreatePlan("plan", target, probe, 0);
    PlainIdentifiers();
    CreatedPlanOk("plan", target, probe, 0);
    CreatedInitial("plan", target, probe, 0);
    ClaimIsValid("s", 2);
    FirstAddable(p, IntentProblem, Claim("s"));
    var q := AddableIsAdded(p, IntentProblem, Claim("s"), 0);
    var r := ClaimRetired(p, q);
    h := [p, q, r];
    ThreePlans(p, q, r);
  }

  /** A journal in which `a` is introduced and then retired, and a stale contribution to `a`: the rebase splits it, the
      operations apply, and the store refuses the merged plan. */
  lemma RetiredMeanwhileRefused(target: Target, probe: Probe, suffix: Suffix) returns (h: seq<Plan>)
    requires TargetOk(target) && ProbeOk(probe, target.projectId) && HexSuffix(suffix)
    ensures IsRun(h) && Stored(h) && |h| == 3
    ensures AnswerAt(h, 2, LateDelta("reason"), suffix, 0) == Err(SaveRefused(Unsound))
  {
    hide IsRun, FreshIds, MergeFits, AllApply, HexSuffix, OpenTo, Split, Upserts, Changed, ActiveId, PlanOk, TextOk,
      ApplyDelta, Rebased;
    h := RetiredJournal(target, probe);
    ShortReason();
    LateClaimSplit(h[1], h[2], "reason", suffix);
    var delta, op := LateDelta("reason"), UpsertKnowledge(IntentProblem, Claim("t"));
    var d := Rebased(h[1], h[2], delta, suffix).value;
    MergedMeetsContract(h[1], h[2], delta, suffix, d, 0);
    RetiredMeanwhileUnsound(h[1], h[2], delta, suffix, d, 0, ApplyDelta(h[2], d, 0).value, op);
  }

  lemma ShortReason()
    ensures TextOk("reason", 512) && |"reason" + PRESERVED| <= 512
  {
    hide Trim;
    NothingToTrim("reason");
  }

  /** The longest reason a delta may give. */
  function LongReason(): string {
    seq(512, _ => 'x')
  }

  /** The same contribution with a longer reason: well-formed as it is, and refused for its form once rebased. */
  lemma LongReasonRefused(target: Target, probe: Probe, suffix: Suffix) returns (h: seq<Plan>)
    requires TargetOk(target) && ProbeOk(probe, target.projectId) && HexSuffix(suffix)
    ensures IsRun(h) && Stored(h) && |h| == 3 && DeltaOk(LateDelta(LongReason()))
    ensures AnswerAt(h, 2, LateDelta(LongReason()), suffix, 0) == Err(Refused(InvalidDelta))
  {
    hide IsRun, FreshIds, MergeFits, AllApply, HexSuffix, Changed, ActiveId, PlanOk, TextOk, LongReason, DeltaOk,
      ApplyOperations, Rebased;
    h := RetiredJournal(target, probe);
    LongReasonFits();
    LateDeltaOk(LongReason());
    LateClaimSplit(h[1], h[2], LongReason(), suffix);
    LateRebased(h[1], h[2], LateDelta(LongReason()), suffix);
  }

  lemma LongReasonFits()
    ensures TextOk(LongReason(), 512) && |LongReason() + PRESERVED| > 512
  {
    hide Trim;
    NothingToTrim(LongReason());
  }

  lemma LateRebased(base: Plan, current: Plan, delta: Delta, suffix: Suffix)
    requires Rebased(base, current, delta, suffix).Ok? && delta.baseRevision != current.revision
    ensures var d := Rebased(base, current, delta, suffix).value;
      d.planId == delta.planId && d.baseRevision == current.revision
  {
    hide Preserved, RebasedReason;
  }

  lemma ThreePlans(p: Plan, q: Plan, r: Plan)
    requires Initial(p) && Next(p, q) && Next(q, r)
    ensures IsRun([p, q, r])
  {
    hide Initial, Next;
  }

  /** Retiring the claim of the second plan. */
  lemma ClaimRetired(p: Plan, q: Plan) returns (r: Plan)
    requires p.knowledge == EmptyKnowledge() && PlanOk(q) && q.revision == 2 && q.createdAt == 0
    requires q.publication.None? && q.groundedPlan.None?
    requires q.knowledge == Added(p.knowledge, IntentProblem, NewItem(Claim("s"), 2), 2)
    ensures Next(q, r) && PlanOk(r) && r.id == q.id && r.revision == 3 && r.createdAt == 0
    ensures r.publication.None? && r.groundedPlan.None? && r.target == q.target
    ensures Changed(q, r, KnowledgeKey(IntentProblem, "a")) && !ActiveId(r.knowledge, "a")
  {
    hide PlanOk, DeltaOk, Identifier, ApplyOperations, DeriveState, Changed, ActiveId, NewItem, Added, EmptyKnowledge,
      SupersededIds,
      EvidenceFitsOrGoes, AllApply;
    var delta := Delta(q.id, 2, [SupersedeKnowledge(IntentProblem, "a", "b")], "reason");
    PlainIdentifiers();
    RetirementOk(q, delta);
    ClaimAlone(p.knowledge, q.knowledge);
    RetireApplies(q.target, q.knowledge, q.probe);
    SeparatedMeetsContract(q, delta, 0);
    r := ApplyDelta(q, delta, 0).value;
    assert Step(q, ChangeBy(delta, 0)) == Ok(r);
    DeltaWithoutUpserts(q, delta, 0, r);
    NoneLeft(q, r);
  }

  lemma RetirementOk(q: Plan, delta: Delta)
    requires PlanOk(q) && q.revision == 2
    requires delta == Delta(q.id, 2, [SupersedeKnowledge(IntentProblem, "a", "b")], "reason")
    ensures DeltaOk(delta)
  {
    CurrentParts(q);
    hide PlanOk, Identifier, Trim;
    PlainIdentifiers();
    NothingToTrim("reason");
  }

  /** The knowledge holds the claim and nothing else. */
  ghost predicate OnlyClaim(k: Knowledge) {
    && IntentProblem in k && k[IntentProblem] == [NewItem(Claim("s"), 2)]
    && forall s :: s in k && s != IntentProblem ==> k[s] == []
  }

  lemma ClaimAlone(k: Knowledge, w: Knowledge)
    requires k == EmptyKnowledge() && w == Added(k, IntentProblem, NewItem(Claim("s"), 2), 2)
    ensures OnlyClaim(w)
  {
    hide Trim;
    assert Retired([], "a", "a", 2) == [];
  }

  lemma RetireApplies(t: Target, k: Knowledge, probe: Probe)
    requires OnlyClaim(k)
    ensures var ops := [SupersedeKnowledge(IntentProblem, "a", "b")];
      && NoUpserts(ops) && Separated(ops) && SupersededIds(ops) == {"a"}
      && AllApply(t, k, ops) && EvidenceFitsOrGoes(k, ops, probe)
  {
    hide Invalid, Trim, EvidenceCurrent;
    var ops := [SupersedeKnowledge(IntentProblem, "a", "b")];
    assert ops[..0] == [];
    assert SupersededIds([]) == {};
    NothingInvalidated(k, "a");
    assert ops[0] in ops;
  }

  lemma NoneLeft(q: Plan, r: Plan)
    requires OnlyClaim(q.knowledge) && Left(q.knowledge, {"a"}, r.knowledge)
    ensures Changed(q, r, KnowledgeKey(IntentProblem, "a")) && !ActiveId(r.knowledge, "a")
  {
    hide Invalid, Trim;
    var item := NewItem(Claim("s"), 2);
    assert item.active && item.id == "a";
    var before, after := q.knowledge[IntentProblem], r.knowledge[IntentProblem];
    SeedIsInvalid(q.knowledge, {"a"}, "a");
    assert LeftAt(q.knowledge, {"a"}, before[0], after[0]);
    assert after == [after[0]] && before[1..] == [] && after[1..] == [];
    assert ItemsWithId(before, "a") == [before[0]];
    assert before[0].active && !after[0].active;
    forall s, i
      ensures !ActiveAt(r.knowledge, s, i)
    {
      if s in q.knowledge && 0 <= i < |q.knowledge[s]| {
        assert LeftAt(q.knowledge, {"a"}, q.knowledge[s][i], r.knowledge[s][i]);
      }
    }
  }

  lemma LateClaimSplit(q: Plan, r: Plan, reason: string, suffix: Suffix)
    requires PlanOk(r) && r.id == "plan" && r.revision == 3 && r.publication.None? && r.groundedPlan.None?
    requires TextOk(reason, 512) && HexSuffix(suffix)
    requires Changed(q, r, KnowledgeKey(IntentProblem, "a")) && !ActiveId(r.knowledge, "a")
    ensures var delta := LateDelta(reason);
      && UpsertsOnly(delta.operations) && FreshIds(q, r, delta, suffix) && Rebased(q, r, delta, suffix).Ok?
      && var d := Rebased(q, r, delta, suffix).value;
         && (OpenTo(r, d) <==> |reason + PRESERVED| <= 512)
         && AllApply(r.target, r.knowledge, d.operations)
         && Split(q, r, delta, UpsertKnowledge(IntentProblem, Claim("t"))) && !Upserts(d.operations, "a")
  {
    hide PlanOk, Changed, NewItem, ValidItem, InputOk, ActiveId, ContradictionId, TextOk, HexSuffix, OpenTo, AllApply,
      DeltaOk;
    var op, delta := UpsertKnowledge(IntentProblem, Claim("t")), LateDelta(reason);
    assert delta.operations[..0] == [];
    assert Preserved(q, r, delta, suffix, []) == Ok([]);
    var ops := [Alternative(delta, suffix, op), Contradiction(delta, suffix, op)];
    assert [] + ops == ops;
    assert Preserved(q, r, delta, suffix, delta.operations) == Ok(ops);
    assert Split(q, r, delta, op);
    assert Contested(q, r, []) == 0;
    ClaimIsValid("t", 0);
    LateDeltaOk(reason);
    RebasedAccepted(q, r, delta, suffix, Rebased(q, r, delta, suffix).value);
    NotWrittenAgain(delta, suffix, op, ops);
  }

  lemma LateDeltaOk(reason: string)
    requires TextOk(reason, 512)
    ensures DeltaOk(LateDelta(reason))
  {
    hide InputOk, Identifier, TextOk;
    ClaimIsValid("t", 0);
    PlainIdentifiers();
  }

  lemma NotWrittenAgain(delta: Delta, suffix: Suffix, op: Operation, ops: seq<Operation>)
    requires op == UpsertKnowledge(IntentProblem, Claim("t"))
    requires ops == [Alternative(delta, suffix, op), Contradiction(delta, suffix, op)]
    ensures !Upserts(ops, "a")
  {
  }

}
