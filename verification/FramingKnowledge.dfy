/** Framing knowledge: sections of items that are only ever added or superseded, and the cascade that follows a
    supersession. */
module FramingKnowledge {
  import opened Wrappers

  type Id = string

  datatype Section =
    | IntentDefinition | IntentProblem | IntentDesiredEffects | IntentNonNegotiableRules | IntentExactObjective
    | IntentCapabilities | IntentIncluded | IntentExcluded | IntentBehaviors
    | Decisions | EvidenceClaims
    | SolutionContext | SolutionReuse | SolutionDesign | SolutionRisks

  const SECTIONS: seq<Section> := [
    IntentDefinition, IntentProblem, IntentDesiredEffects, IntentNonNegotiableRules, IntentExactObjective,
    IntentCapabilities, IntentIncluded, IntentExcluded, IntentBehaviors,
    Decisions, EvidenceClaims,
    SolutionContext, SolutionReuse, SolutionDesign, SolutionRisks]

  datatype ProvenanceKind = HumanDecision | AgentDeduction | SourceFact | InventoryFact | TechnicalDesign
    | Recommendation | Open

  /** Where in the sources a fact stands. */
  datatype Anchor = Anchor(path: string, lineStart: int, lineEnd: Option<int>)

  datatype Provenance = Provenance(kind: ProvenanceKind, reference: string, snapshotFingerprint: Option<string>,
        inventoryFingerprint: Option<string>, anchor: Option<Anchor>)

  datatype Item = Item(
    id: Id, statement: string, provenance: Provenance, active: bool, introducedInRevision: nat,
    supersededInRevision: Option<nat>, supersededBy: Option<Id>, blocksProgress: Option<bool>,
    dependsOn: Option<seq<Id>>)

  /** What a contributor supplies. */
  datatype ItemInput = ItemInput(id: Id, statement: string, provenance: Provenance, blocksProgress: Option<bool>,
        dependsOn: Option<seq<Id>>)

  type Knowledge = map<Section, seq<Item>>

  /** Every section is there. */
  predicate HasEverySection(k: Knowledge) {
    forall i :: 0 <= i < |SECTIONS| ==> SECTIONS[i] in k
  }

  lemma EverySectionListed(s: Section)
    ensures s in SECTIONS
  {
    var i := match s
      case IntentDefinition => 0 case IntentProblem => 1 case IntentDesiredEffects => 2
      case IntentNonNegotiableRules => 3 case IntentExactObjective => 4 case IntentCapabilities => 5
      case IntentIncluded => 6 case IntentExcluded => 7 case IntentBehaviors => 8 case Decisions => 9
      case EvidenceClaims => 10 case SolutionContext => 11 case SolutionReuse => 12 case SolutionDesign => 13
      case SolutionRisks => 14;
    assert SECTIONS[i] == s;
  }

  lemma EverySectionPresent(k: Knowledge)
    requires HasEverySection(k)
    ensures forall s: Section :: s in k
  {
    forall s: Section
      ensures s in k
    {
      EverySectionListed(s);
    }
  }

  function Deps(item: Item): seq<Id> {
    if item.dependsOn.Some? then item.dependsOn.value else []
  }

  function Superseded(item: Item, heir: Id, revision: nat): Item {
    item.(active := false, supersededInRevision := Some(revision), supersededBy := Some(heir))
  }

  // What a supersession invalidates.

  ghost predicate Holds(k: Knowledge, item: Item) {
    exists s :: s in k && item in k[s]
  }

  /** Some active item with id `a` depends directly on `b`. */
  ghost predicate ActiveEdge(k: Knowledge, a: Id, b: Id) {
    exists item :: Holds(k, item) && item.active && item.id == a && b in Deps(item)
  }

  /** `p` follows active dependencies and ends in a seed. */
  ghost predicate LeadsToSeed(k: Knowledge, seeds: set<Id>, p: seq<Id>) {
    && p != []
    && p[|p| - 1] in seeds
    && forall i :: 0 <= i < |p| - 1 ==> ActiveEdge(k, p[i], p[i + 1])
  }

  ghost predicate Invalid(k: Knowledge, seeds: set<Id>, id: Id) {
    exists p :: LeadsToSeed(k, seeds, p) && p[0] == id
  }

  /** The item is active and reaches a seed through dependencies of active items. */
  ghost predicate Affected(k: Knowledge, seeds: set<Id>, item: Item) {
    item.active && exists d :: d in Deps(item) && Invalid(k, seeds, d)
  }

  ghost function CascadedItem(k: Knowledge, seeds: set<Id>, item: Item, heir: Id, revision: nat): Item {
    if Affected(k, seeds, item) then Superseded(item, heir, revision) else item
  }

  ghost function CascadedItems(k: Knowledge, seeds: set<Id>, items: seq<Item>, heir: Id, revision: nat): seq<Item> {
    seq(|items|, i requires 0 <= i < |items| => CascadedItem(k, seeds, items[i], heir, revision))
  }

  /** Exactly the affected items are superseded; nothing else changes. */
  ghost function Cascaded(k: Knowledge, seeds: set<Id>, heir: Id, revision: nat): Knowledge {
    map s | s in k :: CascadedItems(k, seeds, k[s], heir, revision)
  }

  lemma SeedIsInvalid(k: Knowledge, seeds: set<Id>, id: Id)
    requires id in seeds
    ensures Invalid(k, seeds, id)
  {
    assert LeadsToSeed(k, seeds, [id]);
  }

  lemma EdgeToInvalid(k: Knowledge, seeds: set<Id>, a: Id, b: Id)
    requires ActiveEdge(k, a, b) && Invalid(k, seeds, b)
    ensures Invalid(k, seeds, a)
  {
    var p :| LeadsToSeed(k, seeds, p) && p[0] == b;
    var q := [a] + p;
    forall i | 0 <= i < |q| - 1
      ensures ActiveEdge(k, q[i], q[i + 1])
    {
      if i > 0 {
        assert ActiveEdge(k, p[i - 1], p[i]);
      }
    }
    assert LeadsToSeed(k, seeds, q) && q[0] == a;
  }

  lemma AffectedIsInvalid(k: Knowledge, seeds: set<Id>, item: Item)
    requires Holds(k, item) && Affected(k, seeds, item)
    ensures Invalid(k, seeds, item.id)
  {
    var d :| d in Deps(item) && Invalid(k, seeds, d);
    assert ActiveEdge(k, item.id, d);
    EdgeToInvalid(k, seeds, item.id, d);
  }

  /** A set of ids that holds the seeds and every id with an active dependency inside it holds all invalid ids. */
  lemma {:induction false} ClosedHoldsInvalid(k: Knowledge, seeds: set<Id>, done: set<Id>, p: seq<Id>)
    requires seeds <= done && forall a, b :: ActiveEdge(k, a, b) && b in done ==> a in done
    requires LeadsToSeed(k, seeds, p)
    ensures p[0] in done
    decreases |p|
  {
    if |p| > 1 {
      var q := p[1..];
      forall i | 0 <= i < |q| - 1
        ensures ActiveEdge(k, q[i], q[i + 1])
      {
        assert ActiveEdge(k, p[i + 1], p[i + 2]);
      }
      ClosedHoldsInvalid(k, seeds, done, q);
      assert ActiveEdge(k, p[0], p[1]);
    }
  }

  // The loop.

  predicate Hit(item: Item, invalidated: set<Id>) {
    item.active && exists d :: d in Deps(item) && d in invalidated
  }

  /** `now` is `before` with some affected items superseded; the ids of those are invalidated, and nothing else is but
      seeds. */
  ghost predicate Progressed(k: Knowledge, seeds: set<Id>, before: seq<Item>, now: seq<Item>, invalidated: set<Id>,
        heir: Id, revision: nat) {
    && |now| == |before|
    && forall i :: 0 <= i < |before| ==>
         || now[i] == before[i]
         || (Affected(k, seeds, before[i]) && now[i] == Superseded(before[i], heir, revision) &&
           before[i].id in invalidated)
  }

  ghost predicate OnlyInvalid(k: Knowledge, seeds: set<Id>, invalidated: set<Id>) {
    seeds <= invalidated && forall id :: id in invalidated ==> Invalid(k, seeds, id)
  }

  /** How many items are still active. */
  ghost function ActiveCount(items: seq<Item>): nat {
    if items == [] then 0 else (if items[0].active then 1 else 0) + ActiveCount(items[1..])
  }

  ghost function ActiveIn(k: Knowledge, sections: seq<Section>): nat {
    if sections == [] then 0
    else (if sections[0] in k then ActiveCount(k[sections[0]]) else 0) + ActiveIn(k, sections[1..])
  }

  lemma {:induction false} FewerActive(before: seq<Item>, now: seq<Item>)
    requires |before| == |now|
    requires forall i :: 0 <= i < |now| && now[i].active ==> before[i].active
    ensures ActiveCount(now) <= ActiveCount(before)
    ensures (exists i :: 0 <= i < |now| && before[i].active && !now[i].active) ==>
      ActiveCount(now) < ActiveCount(before)
  {
    if before != [] {
      FewerActive(before[1..], now[1..]);
      if i :| 0 <= i < |now| && before[i].active && !now[i].active {
        assert i > 0 ==> before[1..][i - 1].active && !now[1..][i - 1].active;
      }
    }
  }

  lemma {:induction false} FewerActiveIn(k: Knowledge, s: Section, items: seq<Item>, sections: seq<Section>)
    requires s in k && ActiveCount(items) <= ActiveCount(k[s])
    ensures ActiveIn(k[s := items], sections) <= ActiveIn(k, sections)
    ensures s in sections && ActiveCount(items) < ActiveCount(k[s]) ==>
      ActiveIn(k[s := items], sections) < ActiveIn(k, sections)
  {
    if sections != [] {
      FewerActiveIn(k, s, items, sections[1..]);
    }
  }

  /** One section, item by item; an id invalidated here already counts for the items after it. */
  method InvalidateSection(ghost k: Knowledge, ghost seeds: set<Id>, ghost s: Section,
                           items: seq<Item>, invalidated: set<Id>, heir: Id, revision: nat)
      returns (values: seq<Item>, after: set<Id>, changed: bool)
    requires s in k
    requires Progressed(k, seeds, k[s], items, invalidated, heir, revision) && OnlyInvalid(k, seeds, invalidated)
    ensures Progressed(k, seeds, k[s], values, after, heir, revision) && OnlyInvalid(k, seeds, after)
    ensures invalidated <= after
    ensures !changed ==> values == items && after == invalidated && forall item :: item in items ==>
      !Hit(item, invalidated)
    ensures ActiveCount(values) <= ActiveCount(items)
    ensures changed ==> ActiveCount(values) < ActiveCount(items)
  {
    hide Progressed, OnlyInvalid, Hit, ActiveCount;
    values, after, changed := [], invalidated, false;
    ghost var now := items;
    var i := 0;
    while i < |items|
      invariant 0 <= i <= |items| == |now|
      invariant values == now[..i] && now[i..] == items[i..]
      invariant Progressed(k, seeds, k[s], now, after, heir, revision) && OnlyInvalid(k, seeds, after)
      invariant invalidated <= after
      invariant !changed ==> now == items && after == invalidated && forall j :: 0 <= j < i ==>
        !Hit(items[j], invalidated)
      invariant ActiveCount(now) <= ActiveCount(items)
      invariant changed ==> ActiveCount(now) < ActiveCount(items)
    {
      var item := items[i];
      assert now[i] == now[i..][0] && items[i] == items[i..][0];
      if Hit(item, after) {
        HitIsAffected(k, seeds, now, i, s, after, heir, revision);
        FewerActiveAt(now, i, heir, revision);
        after := after + {item.id};
        now := now[i := Superseded(item, heir, revision)];
        values := values + [Superseded(item, heir, revision)];
        changed := true;
      } else {
        values := values + [item];
      }
      i := i + 1;
    }
    assert now[..i] == now;
  }

  lemma FewerActiveAt(items: seq<Item>, i: nat, heir: Id, revision: nat)
    requires i < |items| && items[i].active
    ensures ActiveCount(items[i := Superseded(items[i], heir, revision)]) < ActiveCount(items)
  {
    FewerActive(items, items[i := Superseded(items[i], heir, revision)]);
  }

  /** Superseding a hit item is progress. */
  lemma HitIsAffected(k: Knowledge, seeds: set<Id>, now: seq<Item>, i: nat, s: Section, invalidated: set<Id>, heir: Id,
        revision: nat)
    requires s in k && Progressed(k, seeds, k[s], now, invalidated, heir, revision)
    requires OnlyInvalid(k, seeds, invalidated)
    requires i < |now| && Hit(now[i], invalidated)
    ensures now[i].active
    ensures Progressed(k, seeds, k[s], now[i := Superseded(now[i], heir, revision)], invalidated + {now[i].id}, heir,
      revision)
    ensures OnlyInvalid(k, seeds, invalidated + {now[i].id})
  {
    var item := k[s][i];
    assert now[i] == item;
    assert item in k[s];
    assert Holds(k, item);
    var d :| d in Deps(now[i]) && d in invalidated;
    assert Invalid(k, seeds, d);
    AffectedIsInvalid(k, seeds, item);
  }

  ghost predicate AllProgressed(k: Knowledge, seeds: set<Id>, result: Knowledge, invalidated: set<Id>, heir: Id,
        revision: nat) {
    && result.Keys == k.Keys
    && forall s :: s in k ==> Progressed(k, seeds, k[s], result[s], invalidated, heir, revision)
  }

  /** Repeats passes over all sections until one changes nothing. */
  method CascadeInvalidation(k: Knowledge, seeds: set<Id>, heir: Id, revision: nat) returns (result: Knowledge)
    requires HasEverySection(k)
    ensures result == Cascaded(k, seeds, heir, revision)
  {
    result := k;
    var invalidated := seeds;
    forall id | id in seeds
      ensures Invalid(k, seeds, id)
    {
      SeedIsInvalid(k, seeds, id);
    }
    var changed := true;
    while changed
      invariant AllProgressed(k, seeds, result, invalidated, heir, revision) && OnlyInvalid(k, seeds, invalidated)
      invariant !changed ==> Settled(result, invalidated, |SECTIONS|)
      decreases ActiveIn(result, SECTIONS), changed
    {
      result, invalidated, changed := Pass(k, seeds, result, invalidated, heir, revision);
    }
    FixpointIsCascade(k, seeds, result, invalidated, heir, revision);
  }

  /** No item of the first `n` sections depends on an invalidated id. */
  ghost predicate Settled(k: Knowledge, invalidated: set<Id>, n: nat)
    requires n <= |SECTIONS|
  {
    forall i, item :: 0 <= i < n && SECTIONS[i] in k && item in k[SECTIONS[i]] ==> !Hit(item, invalidated)
  }

  method Pass(ghost k: Knowledge, ghost seeds: set<Id>, start: Knowledge, before: set<Id>, heir: Id, revision: nat)
      returns (result: Knowledge, invalidated: set<Id>, changed: bool)
    requires HasEverySection(k)
    requires AllProgressed(k, seeds, start, before, heir, revision) && OnlyInvalid(k, seeds, before)
    ensures AllProgressed(k, seeds, result, invalidated, heir, revision) && OnlyInvalid(k, seeds, invalidated)
    ensures !changed ==> Settled(result, invalidated, |SECTIONS|)
    ensures ActiveIn(result, SECTIONS) <= ActiveIn(start, SECTIONS)
    ensures changed ==> ActiveIn(result, SECTIONS) < ActiveIn(start, SECTIONS)
  {
    hide Progressed, OnlyInvalid, Hit, ActiveIn, ActiveCount;
    result, invalidated, changed := start, before, false;
    var n := 0;
    while n < |SECTIONS|
      invariant 0 <= n <= |SECTIONS|
      invariant AllProgressed(k, seeds, result, invalidated, heir, revision) && OnlyInvalid(k, seeds, invalidated)
      invariant !changed ==> Settled(result, invalidated, n)
      invariant ActiveIn(result, SECTIONS) <= ActiveIn(start, SECTIONS)
      invariant changed ==> ActiveIn(result, SECTIONS) < ActiveIn(start, SECTIONS)
    {
      var s := SECTIONS[n];
      var values, after, sectionChanged := InvalidateSection(k, seeds, s, result[s], invalidated, heir, revision);
      FewerActiveIn(result, s, values, SECTIONS);
      StillProgressed(k, seeds, result, invalidated, after, heir, revision);
      if sectionChanged {
        changed := true;
      } else {
        assert result[s := values] == result;
      }
      result, invalidated := result[s := values], after;
      n := n + 1;
    }
  }

  lemma StillProgressed(k: Knowledge, seeds: set<Id>, result: Knowledge, invalidated: set<Id>, after: set<Id>,
        heir: Id, revision: nat)
    requires AllProgressed(k, seeds, result, invalidated, heir, revision) && invalidated <= after
    ensures AllProgressed(k, seeds, result, after, heir, revision)
  {
    forall s | s in k
      ensures Progressed(k, seeds, k[s], result[s], after, heir, revision)
    {
      assert Progressed(k, seeds, k[s], result[s], invalidated, heir, revision);
    }
  }

  /** When a pass changes nothing, the invalidated ids are closed, so every affected item has been superseded. */
  lemma FixpointIsCascade(k: Knowledge, seeds: set<Id>, result: Knowledge, invalidated: set<Id>, heir: Id,
        revision: nat)
    requires HasEverySection(k)
    requires AllProgressed(k, seeds, result, invalidated, heir, revision) && OnlyInvalid(k, seeds, invalidated)
    requires Settled(result, invalidated, |SECTIONS|)
    ensures result == Cascaded(k, seeds, heir, revision)
  {
    InvalidatedClosed(k, seeds, result, invalidated, heir, revision);
    forall s | s in k
      ensures result[s] == CascadedItems(k, seeds, k[s], heir, revision)
    {
      assert Progressed(k, seeds, k[s], result[s], invalidated, heir, revision);
      forall i | 0 <= i < |k[s]|
        ensures result[s][i] == CascadedItem(k, seeds, k[s][i], heir, revision)
      {
        if Affected(k, seeds, k[s][i]) && result[s][i] == k[s][i] {
          var d :| d in Deps(k[s][i]) && Invalid(k, seeds, d);
          var p :| LeadsToSeed(k, seeds, p) && p[0] == d;
          ClosedHoldsInvalid(k, seeds, invalidated, p);
          NotHit(result, invalidated, s, result[s][i]);
          assert false;
        }
      }
    }
  }

  lemma NotHit(result: Knowledge, invalidated: set<Id>, s: Section, item: Item)
    requires Settled(result, invalidated, |SECTIONS|) && s in result && item in result[s]
    ensures !Hit(item, invalidated)
  {
    EverySectionListed(s);
    var i :| 0 <= i < |SECTIONS| && SECTIONS[i] == s;
  }

  lemma InvalidatedClosed(k: Knowledge, seeds: set<Id>, result: Knowledge, invalidated: set<Id>, heir: Id,
        revision: nat)
    requires AllProgressed(k, seeds, result, invalidated, heir, revision)
    requires Settled(result, invalidated, |SECTIONS|)
    ensures forall a, b :: ActiveEdge(k, a, b) && b in invalidated ==> a in invalidated
  {
    forall a, b | ActiveEdge(k, a, b) && b in invalidated
      ensures a in invalidated
    {
      var item :| Holds(k, item) && item.active && item.id == a && b in Deps(item);
      var s :| s in k && item in k[s];
      var i :| 0 <= i < |k[s]| && k[s][i] == item;
      assert Progressed(k, seeds, k[s], result[s], invalidated, heir, revision);
      if result[s][i] == item {
        NotHit(result, invalidated, s, item);
      }
    }
  }

}
