/** The delta that refreshes a plan when the repository moved before its grounded stabilization: the new probe is
    recorded and the evidence of the old snapshot is invalidated, item by item. */
module FramingRefresh {
  import opened Wrappers
  import opened FramingKnowledge
  import opened FramingPlan
  import opened Texts
  import Scopes
  import Decimal
  import opened FramingRun
  import opened FramingSupersession
  import opened FramingViews
  import opened FramingSoundness

  /** The active facts among some items, in order. */
  function Facts(items: seq<Item>): seq<Item> {
    if items == [] then []
    else (if items[0].active && FactKind(items[0].provenance.kind) then [items[0]] else []) + Facts(items[1..])
  }

  function ActiveSnapshotEvidence(p: Plan): seq<Item> {
    Facts(At(p.knowledge, EvidenceClaims))
  }

  function RefreshOperations(facts: seq<Item>, observed: Probe, heir: Id): seq<Operation> {
    [RecordProbe(observed)] + seq(|facts|, i requires 0 <= i < |facts| => InvalidateEvidence(facts[i].id, heir))
  }

  function SnapshotId(observed: Probe): Id {
    "repository-snapshot-" + Take(observed.workspaceFingerprint, 12)
  }

  const MOVED := "Repository changed before grounded-plan stabilization; refresh the technical confrontation."

  function RefreshDelta(p: Plan, observed: Probe): Delta {
    Delta(p.id, p.revision, RefreshOperations(ActiveSnapshotEvidence(p), observed, SnapshotId(observed)), MOVED)
  }

  function FirstIds(facts: seq<Item>, n: nat): set<Id>
    requires n <= |facts|
  {
    set i | 0 <= i < n :: facts[i].id
  }

  /** No listed fact depends, directly or not, on a fact listed before it. */
  ghost predicate NoneDependsOnEarlier(k: Knowledge, facts: seq<Item>) {
    forall n :: 0 <= n < |facts| ==> !Affected(k, FirstIds(facts, n), facts[n])
  }

  // Facts.

  lemma {:induction false} FactsThere(items: seq<Item>, n: nat)
    requires n < |Facts(items)|
    ensures exists i ::
      0 <= i < |items| && items[i] == Facts(items)[n] && items[i].active && FactKind(items[i].provenance.kind)
  {
    var first := items[0].active && FactKind(items[0].provenance.kind);
    if !(first && n == 0) {
      var m := if first then n - 1 else n;
      FactsThere(items[1..], m);
      var i :| 0 <= i < |items[1..]| && items[1..][i] == Facts(items[1..])[m];
      assert items[i + 1] == items[1..][i];
    }
  }

  /** `x` stands before `y`, both active. */
  predicate StandsBefore(items: seq<Item>, i: int, j: int, x: Item, y: Item) {
    0 <= i < j < |items| && items[i] == x && items[j] == y && x.active && y.active
  }

  lemma {:induction false} FactsInOrder(items: seq<Item>, m: nat, n: nat)
    requires m < n < |Facts(items)|
    ensures exists i, j :: StandsBefore(items, i, j, Facts(items)[m], Facts(items)[n])
  {
    hide FactKind;
    var first := items[0].active && FactKind(items[0].provenance.kind);
    var x, y := Facts(items)[m], Facts(items)[n];
    if first && m == 0 {
      FactsThere(items[1..], n - 1);
      var j :| 0 <= j < |items[1..]| && items[1..][j] == y && items[1..][j].active;
      assert StandsBefore(items, 0, j + 1, x, y);
    } else {
      var skip := if first then 1 else 0;
      FactsInOrder(items[1..], m - skip, n - skip);
      var i, j :| StandsBefore(items[1..], i, j, x, y);
      assert StandsBefore(items, i + 1, j + 1, x, y);
    }
  }

  lemma {:induction false} FactsComplete(items: seq<Item>, item: Item)
    requires item in items && item.active && FactKind(item.provenance.kind)
    ensures item in Facts(items)
  {
    if items[0] != item {
      FactsComplete(items[1..], item);
    }
  }

  // The whole delta.

  lemma FactPosition(k: Knowledge, n: nat)
    requires EvidenceClaims in k && n < |Facts(k[EvidenceClaims])|
    ensures exists i :: ActiveAt(k, EvidenceClaims, i) && k[EvidenceClaims][i] == Facts(k[EvidenceClaims])[n]
  {
    hide Facts;
    FactsThere(k[EvidenceClaims], n);
    var i :| 0 <= i < |k[EvidenceClaims]| && k[EvidenceClaims][i] == Facts(k[EvidenceClaims])[n] &&
      k[EvidenceClaims][i].active;
    assert ActiveAt(k, EvidenceClaims, i);
  }

  lemma FactIdsDistinct(k: Knowledge, m: nat, n: nat)
    requires UniqueActive(k) && EvidenceClaims in k && m < n < |Facts(k[EvidenceClaims])|
    ensures Facts(k[EvidenceClaims])[m].id != Facts(k[EvidenceClaims])[n].id
  {
    hide Facts, UniqueActive;
    FactsInOrder(k[EvidenceClaims], m, n);
    var items := k[EvidenceClaims];
    var i, j :| StandsBefore(items, i, j, Facts(items)[m], Facts(items)[n]);
    UniqueAt(k, EvidenceClaims, i, EvidenceClaims, j);
  }

  lemma RefreshSupersedes(facts: seq<Item>, observed: Probe, heir: Id, m: nat)
    requires m <= |facts|
    ensures SupersededIds(RefreshOperations(facts, observed, heir)[..m + 1]) == FirstIds(facts, m)
  {
    var ops := RefreshOperations(facts, observed, heir)[..m + 1];
    forall id | id in FirstIds(facts, m)
      ensures id in SupersededIds(ops)
    {
      var i :| 0 <= i < m && facts[i].id == id;
      assert ops[i + 1] == InvalidateEvidence(id, heir);
      assert ops[i + 1] in ops;
    }
    forall id | id in SupersededIds(ops)
      ensures id in FirstIds(facts, m)
    {
      var op :| op in ops && Supersedes(op) && op.id == id;
      var i :| 0 <= i < |ops| && ops[i] == op;
      assert facts[i - 1].id == id;
    }
  }

  lemma {:induction false} RefreshProbe(probe: Probe, facts: seq<Item>, observed: Probe, heir: Id, m: nat)
    requires m <= |facts|
    ensures LastProbe(probe, RefreshOperations(facts, observed, heir)[..m + 1]) == observed
  {
    if m > 0 {
      var ops := RefreshOperations(facts, observed, heir);
      assert ops[..m + 1][..m] == ops[..m];
      RefreshProbe(probe, facts, observed, heir, m - 1);
    }
  }

  /** Each invalidation applies exactly if its fact does not depend on one listed before it. */
  lemma RefreshOperationsApply(p: Plan, observed: Probe, heir: Id)
    requires UniqueActive(p.knowledge) && EvidenceClaims in p.knowledge && ProbeOk(observed, p.target.projectId)
    ensures var facts := ActiveSnapshotEvidence(p);
      AllApply(p.target, p.knowledge, RefreshOperations(facts, observed, heir)) <==>
        NoneDependsOnEarlier(p.knowledge, facts)
  {
    hide Facts, UniqueActive, Invalid, SupersededIds, ActiveKey, Affected, FirstIds;
    var k, facts := p.knowledge, ActiveSnapshotEvidence(p);
    var ops := RefreshOperations(facts, observed, heir);
    forall n | 0 <= n < |facts|
      ensures Applies(p.target, k, ops, n + 1) <==> !Affected(k, FirstIds(facts, n), facts[n])
    {
      InvalidIsAffected(k, n);
      FactPosition(k, n);
      var i :| ActiveAt(k, EvidenceClaims, i) && k[EvidenceClaims][i] == facts[n];
      ActiveHasKey(k, EvidenceClaims, i);
      RefreshSupersedes(facts, observed, heir, n);
    }
    if NoneDependsOnEarlier(k, facts) {
      forall n | 0 <= n < |ops|
        ensures Applies(p.target, k, ops, n)
      {
        if n > 0 {
          assert Applies(p.target, k, ops, n - 1 + 1);
        }
      }
    }
    if AllApply(p.target, k, ops) {
      forall n | 0 <= n < |facts|
        ensures !Affected(k, FirstIds(facts, n), facts[n])
      {
        assert Applies(p.target, k, ops, n + 1);
      }
    }
  }

  /** For a fact that is not itself listed earlier, leading to an earlier fact means depending on one. */
  lemma InvalidIsAffected(k: Knowledge, n: nat)
    requires UniqueActive(k) && EvidenceClaims in k && n < |Facts(k[EvidenceClaims])|
    ensures var facts := Facts(k[EvidenceClaims]);
      Invalid(k, FirstIds(facts, n), facts[n].id) <==> Affected(k, FirstIds(facts, n), facts[n])
  {
    hide Facts, UniqueActive, ActiveEdge, Invalid;
    var facts := Facts(k[EvidenceClaims]);
    var ids := FirstIds(facts, n);
    FactPosition(k, n);
    var i :| ActiveAt(k, EvidenceClaims, i) && k[EvidenceClaims][i] == facts[n];
    assert facts[n] in k[EvidenceClaims];
    assert Holds(k, facts[n]);
    if Affected(k, ids, facts[n]) {
      AffectedIsInvalid(k, ids, facts[n]);
    }
    if Invalid(k, ids, facts[n].id) {
      forall m | 0 <= m < n
        ensures facts[m].id != facts[n].id
      {
        FactIdsDistinct(k, m, n);
      }
      InvalidNonSeed(k, ids, EvidenceClaims, i);
    }
  }

  lemma SnapshotIsIdentifier(observed: Probe)
    requires FingerprintsOk(observed)
    ensures Identifier(SnapshotId(observed))
  {
  }

  lemma ReasonFits()
    ensures TextOk(MOVED, 512)
  {
    hide Trim;
    assert |MOVED| == 91 && MOVED[90] == '.';
    SomethingLeft(MOVED);
  }

  lemma FactIsIdentified(p: Plan, n: nat)
    requires PlanOk(p) && n < |ActiveSnapshotEvidence(p)|
    ensures Identifier(ActiveSnapshotEvidence(p)[n].id)
  {
    hide Facts, DeriveState, DecompositionOk, UniqueActive, DependenciesActive, Identifier;
    FactsThere(At(p.knowledge, EvidenceClaims), n);
  }

  /** The refresh has the form of a delta as long as it invalidates fewer than 128 facts. */
  lemma RefreshDeltaOk(p: Plan, observed: Probe)
    requires PlanOk(p) && ProbeOk(observed, p.target.projectId)
    ensures DeltaOk(RefreshDelta(p, observed)) <==> |ActiveSnapshotEvidence(p)| < MAXIMUM_OPERATIONS
  {
    hide PlanOk, TextOk, Identifier, Facts, ActiveSnapshotEvidence, SnapshotId, IsHash;
    var facts, delta := ActiveSnapshotEvidence(p), RefreshDelta(p, observed);
    PlanIdentified(p);
    SnapshotIsIdentifier(observed);
    ReasonFits();
    forall op | op in delta.operations
      ensures OperationOk(op)
    {
      var i :| 0 <= i < |delta.operations| && delta.operations[i] == op;
      if i > 0 {
        FactIsIdentified(p, i - 1);
      }
    }
  }

  lemma PlanIdentified(p: Plan)
    requires PlanOk(p)
    ensures Identifier(p.id) && Identifier(p.target.projectId) && p.revision >= 1
  {
  }

  /** The refresh applies exactly when there are fewer than 128 facts to invalidate and none of them depends on one
      listed before it; otherwise the delta is too long, or the cascade takes the fact first and its own invalidation
      finds nothing. When it applies, no fact of the old snapshot is active any more and the new plan meets the
      contract unless the clock ran backwards. */
  lemma RefreshApplies(p: Plan, observed: Probe, now: int)
    requires PlanOk(p) && p.publication.None? && p.groundedPlan.None? && ProbeOk(observed, p.target.projectId)
    ensures var r, facts := ApplyDelta(p, RefreshDelta(p, observed), now), ActiveSnapshotEvidence(p);
      && (r.Ok? <==> |facts| < 128 && NoneDependsOnEarlier(p.knowledge, facts))
      && (r.Err? ==> r == Err(if |facts| < 128 then KnowledgeNotFound else InvalidDelta))
      && (r.Ok? ==> NoActiveFact(r.value.knowledge) && r.value.probe == observed)
      && (r.Ok? ==> (PlanOk(r.value) <==> p.createdAt <= now))
  {
    hide PlanOk, DeltaOk, UniqueActive, Left, AllApply, NoneDependsOnEarlier, Facts, MeetsContract, ApplyOperations,
      DeriveState, NoActiveFact, SupersededIds, LastProbe, EvidenceFitsOrGoes, FirstIds, SnapshotId;
    InputParts(p);
    EverySectionPresent(p.knowledge);
    var k, facts, delta := p.knowledge, ActiveSnapshotEvidence(p), RefreshDelta(p, observed);
    var ops, heir := delta.operations, SnapshotId(observed);
    assert ops == ops[..|facts| + 1];
    RefreshDeltaOk(p, observed);
    RefreshSupersedes(facts, observed, heir, |facts|);
    RefreshProbe(p.probe, facts, observed, heir, |facts|);
    RefreshOperationsApply(p, observed, heir);
    SeparatedMeetsContract(p, delta, now);
    var r := ApplyDelta(p, delta, now);
    if r.Ok? {
      DeltaWithoutUpserts(p, delta, now, r.value);
      FactsGone(k, r.value.knowledge);
      FactsGo(k, ops, observed);
    } else {
      OnlyMissing(p.target, DraftOf(p), ops, p.revision + 1);
    }
  }

  lemma FactsGo(k: Knowledge, ops: seq<Operation>, probe: Probe)
    requires EvidenceClaims in k && SupersededIds(ops) == FirstIds(Facts(k[EvidenceClaims]), |Facts(k[EvidenceClaims])|)
    ensures EvidenceFitsOrGoes(k, ops, probe)
  {
    hide Facts, Invalid, FactKind, SupersededIds;
    var facts := Facts(k[EvidenceClaims]);
    forall i | ActiveAt(k, EvidenceClaims, i) && FactKind(k[EvidenceClaims][i].provenance.kind)
      ensures Invalid(k, SupersededIds(ops), k[EvidenceClaims][i].id)
    {
      FactsComplete(k[EvidenceClaims], k[EvidenceClaims][i]);
      var n :| 0 <= n < |facts| && facts[n] == k[EvidenceClaims][i];
      SeedIsInvalid(k, SupersededIds(ops), facts[n].id);
    }
    OthersAreCurrent(probe);
  }

  lemma OthersAreCurrent(probe: Probe)
    ensures forall item: Item :: !FactKind(item.provenance.kind) ==> EvidenceCurrent(item, probe)
  {
  }

  predicate NoActiveFact(k: Knowledge) {
    forall item :: item in At(k, EvidenceClaims) && item.active ==> !FactKind(item.provenance.kind)
  }

  lemma FactsGone(k: Knowledge, w: Knowledge)
    requires EvidenceClaims in k && Left(k, FirstIds(Facts(k[EvidenceClaims]), |Facts(k[EvidenceClaims])|), w)
    ensures NoActiveFact(w)
  {
    hide Facts, Invalid, FactKind;
    var facts := Facts(k[EvidenceClaims]);
    var ids := FirstIds(facts, |facts|);
    forall item | item in At(w, EvidenceClaims) && item.active
      ensures !FactKind(item.provenance.kind)
    {
      var i :| 0 <= i < |w[EvidenceClaims]| && w[EvidenceClaims][i] == item;
      assert LeftAt(k, ids, k[EvidenceClaims][i], w[EvidenceClaims][i]);
      if FactKind(item.provenance.kind) {
        FactsComplete(k[EvidenceClaims], item);
        var n :| 0 <= n < |facts| && facts[n] == item;
        assert item.id in ids;
        SeedIsInvalid(k, ids, item.id);
        assert false;
      }
    }
  }

  lemma {:induction false} OnlyMissing(t: Target, w: Draft, ops: seq<Operation>, revision: nat)
    requires forall op :: op in ops ==> op.InvalidateEvidence? || (op.RecordProbe? && ProbeOk(op.probe, t.projectId))
    ensures ApplyOperations(t, w, ops, revision).Err? ==> ApplyOperations(t, w, ops, revision) == Err(KnowledgeNotFound)
  {
    if ops != [] {
      assert ops[|ops| - 1] in ops;
      OnlyMissing(t, w, ops[..|ops| - 1], revision);
    }
  }

  // A plan that cannot be refreshed.

  function Fact(id: Id, probe: Probe, dependsOn: Option<seq<Id>>): ItemInput {
    ItemInput(id, "s", Provenance(SourceFact, "r", Some(probe.workspaceFingerprint), None, Some(Anchor("f", 1, None))),
      None, dependsOn)
  }

  lemma FactIsValid(id: Id, probe: Probe, dependsOn: Option<seq<Id>>, revision: nat)
    requires FingerprintsOk(probe) && Identifier(id) && (dependsOn.Some? ==> IdentifiersOnce(dependsOn.value))
    ensures InputOk(Fact(id, probe, dependsOn)) && ValidItem(NewItem(Fact(id, probe, dependsOn), revision))
    ensures EvidenceCurrent(NewItem(Fact(id, probe, dependsOn), revision), probe)
  {
    hide Identifier, IsHash, Trim, IdentifiersOnce;
    NothingToTrim("s");
    NothingToTrim("r");
    IdentifiedOnce(dependsOn);
    OnePart("f", '/');
    OnePart("f", '\\');
  }

  lemma OnePart(s: string, separator: char)
    requires |s| == 1 && s[0] != separator
    ensures Scopes.Split(s, separator) == [s]
  {
    assert s[1..] == "";
    assert Scopes.Split("", separator) == [""];
    assert [s[0]] + "" == s;
  }

  lemma IdentifiedOnce(dependsOn: Option<seq<Id>>)
    requires dependsOn.Some? ==> IdentifiersOnce(dependsOn.value)
    ensures dependsOn.Some? ==> forall d :: d in dependsOn.value ==> Identifier(d)
  {
  }

  /** A plan with two active facts, the second of which depends on the first, comes up in a journal and cannot be
      refreshed. */
  lemma DependentFactBlocksRefresh(target: Target, probe: Probe, observed: Probe) returns (plans: seq<Plan>)
    requires TargetOk(target) && ProbeOk(probe, target.projectId) && ProbeOk(observed, target.projectId)
    ensures IsRun(plans) && |plans| == 3 && PlanOk(plans[2]) && plans[2].probe == probe
    ensures ApplyDelta(plans[2], RefreshDelta(plans[2], observed), 0) == Err(KnowledgeNotFound)
  {
    hide PlanOk, ApplyDelta, DeriveState, Next, Initial, NewItem, ValidItem, InputOk, Addable, NoneDependsOnEarlier,
      EmptyKnowledge, Added, Facts, Identifier, Fact;
    var p := CreatePlan("plan", target, probe, 0);
    PlainIdentifiers();
    CreatedPlanOk("plan", target, probe, 0);
    CreatedInitial("plan", target, probe, 0);
    var a, b := Fact("a", probe, None), Fact("b", probe, Some(["a"]));
    FactShape("a", probe, None);
    FactShape("b", probe, Some(["a"]));
    FactIsValid("a", probe, None, 2);
    FirstAddable(p, EvidenceClaims, a);
    var q := AddableIsAdded(p, EvidenceClaims, a, 0);
    FactIsValid("b", probe, Some(["a"]), 3);
    SecondAddable(p.knowledge, q.knowledge, probe);
    var r := AddableIsAdded(q, EvidenceClaims, b, 0);
    plans := [p, q, r];
    BothListed(p.knowledge, q.knowledge, r.knowledge, probe);
    RefreshApplies(r, observed, 0);
  }

  lemma FactShape(id: Id, probe: Probe, dependsOn: Option<seq<Id>>)
    ensures Fact(id, probe, dependsOn).id == id && Fact(id, probe, dependsOn).dependsOn == dependsOn
  {
  }

  lemma SecondAddable(k: Knowledge, w: Knowledge, probe: Probe)
    requires k == EmptyKnowledge() && w == Added(k, EvidenceClaims, NewItem(Fact("a", probe, None), 2), 2)
    ensures Addable(w, probe, EvidenceClaims, NewItem(Fact("b", probe, Some(["a"])), 3))
    ensures !ActiveKey(w, EvidenceClaims, "b")
  {
    hide ValidItem, Trim;
    var item := NewItem(Fact("a", probe, None), 2);
    assert Retired([], "a", "a", 2) == [];
    assert w[EvidenceClaims] == [item] && [item][1..] == [];
    assert FindActive([], "b") == None;
    assert ActiveAt(w, EvidenceClaims, 0);
  }

  lemma BothListed(k: Knowledge, w: Knowledge, after: Knowledge, probe: Probe)
    requires k == EmptyKnowledge() && w == Added(k, EvidenceClaims, NewItem(Fact("a", probe, None), 2), 2)
    requires after == Added(w, EvidenceClaims, NewItem(Fact("b", probe, Some(["a"])), 3), 3)
    ensures !NoneDependsOnEarlier(after, Facts(At(after, EvidenceClaims)))
    ensures |Facts(At(after, EvidenceClaims))| == 2
  {
    hide Trim;
    var a, b := NewItem(Fact("a", probe, None), 2), NewItem(Fact("b", probe, Some(["a"])), 3);
    assert Retired([], "a", "a", 2) == [];
    assert w[EvidenceClaims] == [a];
    assert Retired([a], "b", "b", 3) == [a];
    assert after[EvidenceClaims] == [a, b];
    assert [a, b][1..] == [b] && [b][1..] == [];
    assert Facts([b]) == [b];
    assert Facts([a, b]) == [a, b];
    assert FirstIds([a, b], 1) == {"a"};
    SeedIsInvalid(after, {"a"}, "a");
    assert b.active && "a" in Deps(b);
    assert Affected(after, FirstIds([a, b], 1), [a, b][1]);
  }

  // A plan with too many facts.

  function Numbered(i: nat): Id {
    "f" + Decimal.Digits(i)
  }

  lemma NumberedIsIdentifier(i: nat)
    requires i < 1000
    ensures Identifier(Numbered(i))
  {
    assert Decimal.Power(3) == 1000;
    Decimal.ShortNumber(i, 3, 1000);
  }

  lemma NumberedApart(i: nat, j: nat)
    requires Numbered(i) == Numbered(j)
    ensures i == j
  {
    assert Decimal.Digits(i) == Numbered(i)[1..] && Decimal.Digits(j) == Numbered(j)[1..];
    Decimal.DigitsInjective(i, j);
  }

  lemma {:induction false} AllFacts(items: seq<Item>)
    requires forall i :: 0 <= i < |items| ==> items[i].active && FactKind(items[i].provenance.kind)
    ensures Facts(items) == items
  {
    if items != [] {
      AllFacts(items[1..]);
    }
  }

  /** Item `i` is the active fact with that number. */
  predicate IsNumbered(item: Item, i: nat) {
    item.active && item.id == Numbered(i) && FactKind(item.provenance.kind)
  }

  /** An open plan whose knowledge is `n` numbered facts. */
  ghost predicate Crowded(p: Plan, target: Target, probe: Probe, n: nat) {
    && PlanOk(p) && p.target == target && p.probe == probe && p.createdAt == 0
    && p.publication.None? && p.groundedPlan.None?
    && OnlyNumbered(p.knowledge, n)
  }

  ghost predicate OnlyNumbered(k: Knowledge, n: nat) {
    && EvidenceClaims in k && |k[EvidenceClaims]| == n
    && (forall i :: 0 <= i < n ==> IsNumbered(k[EvidenceClaims][i], i))
    && (forall s :: s in k && s != EvidenceClaims ==> k[s] == [])
  }

  lemma NextAddable(k: Knowledge, probe: Probe, n: nat, item: Item)
    requires OnlyNumbered(k, n) && item.id == Numbered(n) && Deps(item) == [] && EvidenceCurrent(item, probe)
    ensures !ActiveKey(k, EvidenceClaims, Numbered(n)) && Addable(k, probe, EvidenceClaims, item)
  {
    hide Numbered, FindActive, EvidenceCurrent;
    if ActiveKey(k, EvidenceClaims, Numbered(n)) {
      NotNumbered(k, n);
      assert false;
    }
    if s :| s != EvidenceClaims && ActiveKey(k, s, item.id) {
      NothingElsewhere(k, n, s, item.id);
      assert false;
    }
  }

  lemma NotNumbered(k: Knowledge, n: nat)
    requires OnlyNumbered(k, n)
    ensures !ActiveKey(k, EvidenceClaims, Numbered(n))
  {
    hide Numbered, FindActive;
    FoundIn(k[EvidenceClaims], Numbered(n));
    forall i | 0 <= i < n
      ensures k[EvidenceClaims][i].id != Numbered(n)
    {
      assert IsNumbered(k[EvidenceClaims][i], i);
      if Numbered(i) == Numbered(n) {
        NumberedApart(i, n);
      }
    }
  }

  lemma NothingElsewhere(k: Knowledge, n: nat, s: Section, id: Id)
    requires OnlyNumbered(k, n) && s != EvidenceClaims
    ensures !ActiveKey(k, s, id)
  {
    hide Numbered;
  }

  lemma OneMoreNumbered(k: Knowledge, n: nat, item: Item, revision: nat)
    requires OnlyNumbered(k, n) && IsNumbered(item, n)
    ensures OnlyNumbered(Added(k, EvidenceClaims, item, revision), n + 1)
  {
    hide Numbered, FactKind;
    var items := k[EvidenceClaims];
    forall i | 0 <= i < n
      ensures items[i].id != item.id
    {
      assert IsNumbered(items[i], i);
      if Numbered(i) == Numbered(n) {
        NumberedApart(i, n);
      }
    }
    assert Retired(items, item.id, item.id, revision) == items;
  }

  lemma CrowdedNext(p: Plan, target: Target, probe: Probe, n: nat) returns (q: Plan)
    requires Crowded(p, target, probe, n) && n < 1000 && FingerprintsOk(probe)
    ensures Next(p, q) && Crowded(q, target, probe, n + 1)
  {
    hide PlanOk, OnlyNumbered, Numbered, Next, ApplyDelta, Addable, ValidItem, InputOk, Added, Fact, Identifier,
      EvidenceCurrent, FindActive;
    var fact := Fact(Numbered(n), probe, None);
    NumberedIsIdentifier(n);
    FactIsValid(Numbered(n), probe, None, p.revision + 1);
    FactShape(Numbered(n), probe, None);
    var item := NewItem(fact, p.revision + 1);
    NextAddable(p.knowledge, probe, n, item);
    q := AddableIsAdded(p, EvidenceClaims, fact, 0);
    FactIsNumbered(n, probe, p.revision + 1);
    OneMoreNumbered(p.knowledge, n, item, p.revision + 1);
  }

  lemma FactIsNumbered(n: nat, probe: Probe, revision: nat)
    ensures IsNumbered(NewItem(Fact(Numbered(n), probe, None), revision), n)
  {
    hide Numbered, Trim;
  }

  /** A journal of `n` contributions of one fact each. */
  lemma {:induction false} CrowdedRun(target: Target, probe: Probe, n: nat) returns (plans: seq<Plan>)
    requires TargetOk(target) && ProbeOk(probe, target.projectId) && n <= 1000
    ensures IsRun(plans) && |plans| == n + 1 && Crowded(plans[n], target, probe, n)
  {
    hide PlanOk, OnlyNumbered, Next, Initial, TargetOk, Identifier;
    if n == 0 {
      var p := CreatePlan("plan", target, probe, 0);
      PlainIdentifiers();
      CreatedPlanOk("plan", target, probe, 0);
      CreatedInitial("plan", target, probe, 0);
      NothingNumbered();
      plans := [p];
    } else {
      plans := CrowdedRun(target, probe, n - 1);
      var q := CrowdedNext(plans[n - 1], target, probe, n - 1);
      plans := LongerRun(plans, q);
    }
  }

  lemma LongerRun(plans: seq<Plan>, q: Plan) returns (longer: seq<Plan>)
    requires IsRun(plans) && Next(plans[|plans| - 1], q)
    ensures IsRun(longer) && longer == plans + [q]
  {
    hide Next, Initial;
    longer := plans + [q];
  }

  lemma NothingNumbered()
    ensures OnlyNumbered(EmptyKnowledge(), 0)
  {
  }

  /** A journal of 128 independent facts leads to a plan that cannot be refreshed: the delta would be too long. */
  lemma ManyFactsBlockRefresh(target: Target, probe: Probe, observed: Probe) returns (plans: seq<Plan>)
    requires TargetOk(target) && ProbeOk(probe, target.projectId) && ProbeOk(observed, target.projectId)
    ensures IsRun(plans) && |plans| == MAXIMUM_OPERATIONS + 1
    ensures var p := plans[MAXIMUM_OPERATIONS];
      PlanOk(p) && ApplyDelta(p, RefreshDelta(p, observed), 0) == Err(InvalidDelta)
  {
    hide PlanOk, ApplyDelta, Facts, RefreshDelta, NoneDependsOnEarlier, IsRun, OnlyNumbered, TargetOk;
    plans := CrowdedRun(target, probe, MAXIMUM_OPERATIONS);
    var p := plans[MAXIMUM_OPERATIONS];
    CrowdedFacts(p.knowledge, MAXIMUM_OPERATIONS);
    RefreshApplies(p, observed, 0);
  }

  lemma CrowdedFacts(k: Knowledge, n: nat)
    requires OnlyNumbered(k, n)
    ensures |Facts(At(k, EvidenceClaims))| == n
  {
    hide Numbered, FactKind;
    forall i | 0 <= i < n
      ensures k[EvidenceClaims][i].active && FactKind(k[EvidenceClaims][i].provenance.kind)
    {
      assert IsNumbered(k[EvidenceClaims][i], i);
    }
    AllFacts(k[EvidenceClaims]);
  }

}
