/** What stands under each key while a delta runs: a fold over its operations that knows neither revisions nor
    superseded items, and how it follows the knowledge. */
module FramingViews {
  import opened Wrappers
  import opened FramingKnowledge
  import opened FramingPlan
  import opened Texts
  import opened FramingRun
  import opened FramingSupersession

  type View = (Section, Id) -> Option<Item>

  ghost predicate Stands(v: View, s: Section, id: Id) {
    v(s, id).Some?
  }

  ghost predicate StandsId(v: View, id: Id) {
    exists s :: Stands(v, s, id)
  }

  /** Something that stands under the id `a` depends directly on `b`. */
  ghost predicate RestsOn(v: View, a: Id, b: Id) {
    exists s :: Stands(v, s, a) && b in Deps(v(s, a).value)
  }

  ghost predicate LeadsTo(v: View, p: seq<Id>, e: Id) {
    && p != [] && p[|p| - 1] == e
    && forall i :: 0 <= i < |p| - 1 ==> RestsOn(v, p[i], p[i + 1])
  }

  /** The id is `e`, or depends on it through what stands. */
  ghost predicate ReliesOn(v: View, id: Id, e: Id) {
    exists p :: LeadsTo(v, p, e) && p[0] == id
  }

  /** What a supersession of `e` in section `s` takes: its own key, and all that depends on `e`. */
  ghost predicate Falls(v: View, s: Section, e: Id, t: Section, id: Id) {
    (t == s && id == e) || (Stands(v, t, id) && exists d :: d in Deps(v(t, id).value) && ReliesOn(v, d, e))
  }

  ghost function Without(v: View, s: Section, e: Id): View {
    (t: Section, id: Id) => if Falls(v, s, e, t, id) then None else v(t, id)
  }

  function Put(v: View, s: Section, value: ItemInput): View {
    (t: Section, id: Id) => if t == s && id == value.id then Some(NewItem(value, 0)) else v(t, id)
  }

  ghost function After(v: View, op: Operation): View {
    match op
    case UpsertKnowledge(s, value) => Put(v, s, value)
    case SupersedeKnowledge(s, id, _) => Without(v, s, id)
    case InvalidateEvidence(id, _) => Without(v, EvidenceClaims, id)
    case RecordProbe(_) => v
    case ProposeDecomposition(_) => v
  }

  function ViewOf(k: Knowledge): View {
    (s: Section, id: Id) => FindActive(At(k, s), id)
  }

  ghost function ViewAfter(k: Knowledge, ops: seq<Operation>): View {
    if ops == [] then ViewOf(k) else After(ViewAfter(k, ops[..|ops| - 1]), ops[|ops| - 1])
  }

  /** The operation can apply to what stands. */
  ghost predicate CanApply(t: Target, v: View, op: Operation) {
    match op
    case UpsertKnowledge(_, value) => ValidItem(NewItem(value, 0))
    case SupersedeKnowledge(s, id, _) => Stands(v, s, id)
    case InvalidateEvidence(id, _) => Stands(v, EvidenceClaims, id)
    case RecordProbe(probe) => ProbeOk(probe, t.projectId)
    case ProposeDecomposition(d) => DecompositionOk(t, d)
  }

  ghost predicate EachApplies(t: Target, k: Knowledge, ops: seq<Operation>) {
    forall n :: 0 <= n < |ops| ==> CanApply(t, ViewAfter(k, ops[..n]), ops[n])
  }

  function LastProbe(probe: Probe, ops: seq<Operation>): Probe {
    if ops == [] then probe
    else if ops[|ops| - 1].RecordProbe? then ops[|ops| - 1].probe
    else LastProbe(probe, ops[..|ops| - 1])
  }

  /** What counts as an item's dependencies once it is added. */
  function Needs(value: ItemInput): seq<Id> {
    if value.dependsOn.Some? then value.dependsOn.value else []
  }

  // Finding active items.

  ghost predicate UniqueWithin(w: Knowledge) {
    forall s, i, j :: ActiveAt(w, s, i) && ActiveAt(w, s, j) && w[s][i].id == w[s][j].id ==> i == j
  }

  lemma ActiveHasKey(w: Knowledge, s: Section, i: int)
    requires ActiveAt(w, s, i)
    ensures ActiveKey(w, s, w[s][i].id)
  {
    FoundIn(w[s], w[s][i].id);
  }

  lemma KeyIsActive(w: Knowledge, s: Section, id: Id) returns (i: nat)
    requires ActiveKey(w, s, id)
    ensures ActiveAt(w, s, i) && w[s][i].id == id && Some(w[s][i]) == FindActive(At(w, s), id)
  {
    FoundSection(w, s, id);
    i := FoundHere(At(w, s), id);
  }

  lemma NothingInvalidated(k: Knowledge, id: Id)
    ensures !Invalid(k, {}, id)
  {
  }

  lemma SameContentFits(item: Item, value: ItemInput, probe: Probe)
    requires SameContent(item, NewItem(value, 0))
    ensures EvidenceCurrent(item, probe) <==> EvidenceCurrent(NewItem(value, 0), probe)
  {
    hide Trim;
  }

  lemma {:induction false} FoundInAppended(items: seq<Item>, item: Item, id: Id)
    ensures FindActive(items + [item], id) ==
      if FindActive(items, id).Some? then FindActive(items, id)
      else if item.active && item.id == id then Some(item) else None
  {
    if items == [] {
      assert [] + [item] == [item] && [item][1..] == [];
    } else {
      assert (items + [item])[1..] == items[1..] + [item];
      FoundInAppended(items[1..], item, id);
    }
  }

  lemma {:induction false} FoundInRetired(items: seq<Item>, retired: Id, heir: Id, revision: nat, id: Id)
    ensures FindActive(Retired(items, retired, heir, revision), id) == if id == retired then None
      else FindActive(items, id)
  {
    if items != [] {
      assert Retired(items, retired, heir, revision)[1..] == Retired(items[1..], retired, heir, revision);
      FoundInRetired(items[1..], retired, heir, revision, id);
    }
  }

  function Added(k: Knowledge, s: Section, item: Item, revision: nat): Knowledge {
    k[s := Retired(At(k, s), item.id, item.id, revision) + [item]]
  }

  lemma FoundInAdded(k: Knowledge, s: Section, item: Item, revision: nat, t: Section, id: Id)
    requires item.active
    ensures FindActive(At(Added(k, s, item, revision), t), id) ==
      if t == s && id == item.id then Some(item) else FindActive(At(k, t), id)
  {
    hide FindActive, Retired;
    FoundInRetired(At(k, s), item.id, item.id, revision, id);
    FoundInAppended(Retired(At(k, s), item.id, item.id, revision), item, id);
  }

  lemma AddedUnique(k: Knowledge, s: Section, item: Item, revision: nat)
    requires UniqueWithin(k) && s in k
    ensures UniqueWithin(Added(k, s, item, revision))
  {
    var after := Added(k, s, item, revision);
    forall t, i, j | ActiveAt(after, t, i) && ActiveAt(after, t, j) && after[t][i].id == after[t][j].id
      ensures i == j
    {
      if i < |k[t]| && j < |k[t]| {
        assert ActiveAt(k, t, i) && ActiveAt(k, t, j);
      }
    }
  }

  /** An upsert leaves its content under its key and every other key as it was. */
  lemma UpsertFound(k: Knowledge, s: Section, input: ItemInput, revision: nat, t: Section, id: Id)
    requires Upsert(k, s, input, revision).Ok?
    ensures var found := FindActive(At(Upsert(k, s, input, revision).value, t), id);
      if t == s && id == input.id then found.Some? && SameContent(found.value, NewItem(input, 0))
      else found == FindActive(At(k, t), id)
  {
    hide FindActive, ValidItem, Trim;
    FoundInAdded(k, s, NewItem(input, revision), revision, t, id);
  }

  lemma UpsertUnique(k: Knowledge, s: Section, input: ItemInput, revision: nat)
    requires HasEverySection(k) && UniqueWithin(k) && Upsert(k, s, input, revision).Ok?
    ensures HasEverySection(Upsert(k, s, input, revision).value) && UniqueWithin(Upsert(k, s, input, revision).value)
  {
    hide UniqueWithin, FindActive, ValidItem, Trim, SameContent, Retired;
    EverySectionPresent(k);
    AddedUnique(k, s, NewItem(input, revision), revision);
  }

  /** Validity does not look at the revision of an active item. */
  lemma ValidWhenever(value: ItemInput, revision: nat)
    ensures ValidItem(NewItem(value, revision)) <==> ValidItem(NewItem(value, 0))
  {
    hide Trim;
  }

  lemma UpsertOk(k: Knowledge, s: Section, value: ItemInput, revision: nat)
    ensures Upsert(k, s, value, revision).Ok? <==> ValidItem(NewItem(value, revision))
  {
    hide ValidItem, FindActive, SameContent, Retired;
  }

  // The knowledge follows the view.

  predicate SameFound(a: Option<Item>, b: Option<Item>) {
    && (a.Some? <==> b.Some?)
    && (a.Some? ==> a.value.id == b.value.id && SameContent(a.value, b.value))
  }

  /** Under each key the knowledge holds at most one active item, and it has the content that stands. */
  ghost predicate Matches(v: View, w: Knowledge) {
    && HasEverySection(w)
    && UniqueWithin(w)
    && forall s, id :: SameFound(v(s, id), FindActive(At(w, s), id))
  }

  lemma MatchedAt(v: View, w: Knowledge, s: Section, id: Id)
    requires Matches(v, w)
    ensures SameFound(v(s, id), FindActive(At(w, s), id))
    ensures Stands(v, s, id) <==> ActiveKey(w, s, id)
  {
    hide HasEverySection, UniqueWithin, FindActive, SameContent;
  }

  /** An active item is what stands under its key. */
  lemma ActiveStands(v: View, w: Knowledge, s: Section, i: int)
    requires Matches(v, w) && ActiveAt(w, s, i)
    ensures FindActive(At(w, s), w[s][i].id) == Some(w[s][i])
    ensures Stands(v, s, w[s][i].id) && SameContent(v(s, w[s][i].id).value, w[s][i])
    ensures Deps(v(s, w[s][i].id).value) == Deps(w[s][i])
  {
    hide HasEverySection, FindActive;
    MatchedAt(v, w, s, w[s][i].id);
    FoundAt(w, s, i);
  }

  lemma SameDeps(a: Item, b: Item)
    requires SameContent(a, b)
    ensures Deps(a) == Deps(b)
  {
  }

  /** What stands is an active item. */
  lemma StandingIsActive(v: View, w: Knowledge, s: Section, id: Id) returns (i: nat)
    requires Matches(v, w) && Stands(v, s, id)
    ensures ActiveAt(w, s, i) && w[s][i].id == id && SameContent(v(s, id).value, w[s][i])
    ensures Deps(v(s, id).value) == Deps(w[s][i])
  {
    hide Matches, FindActive, SameContent, Deps;
    MatchedAt(v, w, s, id);
    i := KeyIsActive(w, s, id);
    SameDeps(v(s, id).value, w[s][i]);
  }

  lemma MatchedEdges(v: View, w: Knowledge, a: Id, b: Id)
    requires Matches(v, w)
    ensures ActiveEdge(w, a, b) <==> RestsOn(v, a, b)
  {
    hide Matches, FindActive, SameContent, Deps;
    if ActiveEdge(w, a, b) {
      var item :| Holds(w, item) && item.active && item.id == a && b in Deps(item);
      var s :| s in w && item in w[s];
      var i :| 0 <= i < |w[s]| && w[s][i] == item;
      ActiveStands(v, w, s, i);
    }
    if s :| Stands(v, s, a) && b in Deps(v(s, a).value) {
      var i := StandingIsActive(v, w, s, a);
      assert w[s][i] in w[s];
      assert Holds(w, w[s][i]);
    }
  }

  lemma MatchedChains(v: View, w: Knowledge, d: Id, e: Id)
    requires Matches(v, w)
    ensures Invalid(w, {e}, d) <==> ReliesOn(v, d, e)
  {
    hide Matches, ActiveEdge, RestsOn;
    forall a, b
      ensures ActiveEdge(w, a, b) <==> RestsOn(v, a, b)
    {
      MatchedEdges(v, w, a, b);
    }
    if p :| LeadsToSeed(w, {e}, p) && p[0] == d {
      assert LeadsTo(v, p, e);
    }
    if p :| LeadsTo(v, p, e) && p[0] == d {
      assert LeadsToSeed(w, {e}, p);
    }
  }

  /** Marking the superseded item itself cuts no chain that leads to it. */
  lemma MarkedChains(w: Knowledge, s: Section, e: Id, heir: Id, revision: nat, d: Id)
    requires s in w
    ensures Invalid(Marked(w, s, e, heir, revision), {e}, d) <==> Invalid(w, {e}, d)
  {
    hide Left, Marked, ActiveEdge;
    NothingInvalid(w);
    NothingInvalidated(w, d);
    if Invalid(w, {e}, d) {
      var p :| LeadsToSeed(w, {e}, p) && p[0] == d;
      ChainSurvives(w, {}, w, s, e, heir, revision, p);
    }
    if Invalid(Marked(w, s, e, heir, revision), {e}, d) {
      forall a, b | ActiveEdge(Marked(w, s, e, heir, revision), a, b)
        ensures ActiveEdge(w, a, b)
      {
        MarkedEdges(w, {}, w, s, e, heir, revision, a, b);
      }
      InvalidMonotone(Marked(w, s, e, heir, revision), w, {e}, {e}, d);
    }
  }

  /** An active item is affected exactly when its key falls. */
  lemma AffectedFalls(v: View, w: Knowledge, s: Section, e: Id, heir: Id, revision: nat, t: Section, i: int)
    requires Matches(v, w) && s in w && ActiveAt(w, t, i) && !(t == s && w[t][i].id == e)
    ensures Affected(Marked(w, s, e, heir, revision), {e}, w[t][i]) <==> Falls(v, s, e, t, w[t][i].id)
  {
    hide Matches, Marked, Invalid, ReliesOn, Deps, SameContent;
    ActiveStands(v, w, t, i);
    forall d
      ensures Invalid(Marked(w, s, e, heir, revision), {e}, d) <==> ReliesOn(v, d, e)
    {
      MarkedChains(w, s, e, heir, revision, d);
      MatchedChains(v, w, d, e);
    }
  }

  /** Where an item is after a supersession. */
  lemma ActiveAfter(v: View, w: Knowledge, s: Section, e: Id, heir: Id, revision: nat, t: Section, i: int)
    requires Matches(v, w) && Supersede(w, s, e, heir, revision).Ok? && s in w
    ensures var after := Supersede(w, s, e, heir, revision).value;
      && (ActiveAt(after, t, i) <==> ActiveAt(w, t, i) && !Falls(v, s, e, t, w[t][i].id))
      && (ActiveAt(after, t, i) ==> after[t][i] == w[t][i])
  {
    hide Matches, Falls, Affected, Cascaded;
    var marked := Marked(w, s, e, heir, revision);
    MarkedIs(w, s, e, heir, revision);
    var after := Cascaded(marked, {e}, heir, revision);
    if ActiveAt(after, t, i) {
      ActiveWasActive(w, s, e, heir, revision, t, i);
      AffectedFalls(v, w, s, e, heir, revision, t, i);
    }
    if ActiveAt(w, t, i) && !Falls(v, s, e, t, w[t][i].id) {
      OwnKeyFalls(v, s, e);
      AffectedFalls(v, w, s, e, heir, revision, t, i);
      NothingInvalid(w);
      MarkedItem(w, {}, w, s, e, heir, revision, t, i);
      CascadeAt(marked, {e}, heir, revision, t, i);
    }
  }

  lemma OwnKeyFalls(v: View, s: Section, e: Id)
    ensures Falls(v, s, e, s, e)
  {
  }

  /** A supersession takes from the knowledge what it takes from the view. */
  lemma SupersedeMatches(v: View, w: Knowledge, s: Section, e: Id, heir: Id, revision: nat)
    requires Matches(v, w)
    ensures Supersede(w, s, e, heir, revision).Ok? <==> Stands(v, s, e)
    ensures Supersede(w, s, e, heir, revision).Ok? ==>
      Matches(Without(v, s, e), Supersede(w, s, e, heir, revision).value)
  {
    hide Matches, Falls, Cascaded, FindActive, SameContent, UniqueWithin, HasEverySection;
    MatchedAt(v, w, s, e);
    if Stands(v, s, e) {
      MatchedParts(v, w);
      EverySectionPresent(w);
      SupersedeKeepsSections(w, s, e, heir, revision);
      var after := Supersede(w, s, e, heir, revision).value;
      forall t, i
        ensures ActiveAt(after, t, i) <==> ActiveAt(w, t, i) && !Falls(v, s, e, t, w[t][i].id)
        ensures ActiveAt(after, t, i) ==> after[t][i] == w[t][i]
      {
        ActiveAfter(v, w, s, e, heir, revision, t, i);
      }
      StillUniqueWithin(w, after);
      forall t, id
        ensures SameFound(Without(v, s, e)(t, id), FindActive(At(after, t), id))
      {
        FoundWithout(v, w, after, s, e, t, id);
      }
      assert Matches(Without(v, s, e), after) by {
        MatchesIntro(Without(v, s, e), after);
      }
    }
  }

  lemma MatchedParts(v: View, w: Knowledge)
    requires Matches(v, w)
    ensures HasEverySection(w) && UniqueWithin(w)
  {
  }

  lemma MatchesIntro(v: View, w: Knowledge)
    requires HasEverySection(w) && UniqueWithin(w) && forall s, id :: SameFound(v(s, id), FindActive(At(w, s), id))
    ensures Matches(v, w)
  {
  }

  lemma StillUniqueWithin(w: Knowledge, after: Knowledge)
    requires UniqueWithin(w)
    requires forall t, i :: ActiveAt(after, t, i) ==> ActiveAt(w, t, i) && after[t][i] == w[t][i]
    ensures UniqueWithin(after)
  {
  }

  lemma FoundWithout(v: View, w: Knowledge, after: Knowledge, s: Section, e: Id, t: Section, id: Id)
    requires Matches(v, w) && UniqueWithin(after)
    requires forall i :: ActiveAt(after, t, i) <==> ActiveAt(w, t, i) && !Falls(v, s, e, t, w[t][i].id)
    requires forall i :: ActiveAt(after, t, i) ==> after[t][i] == w[t][i]
    ensures SameFound(Without(v, s, e)(t, id), FindActive(At(after, t), id))
  {
    hide Matches, Falls, FindActive, SameContent;
    MatchedAt(v, w, t, id);
    if ActiveKey(after, t, id) {
      var i := KeyIsActive(after, t, id);
      ActiveStands(v, w, t, i);
    } else if Stands(v, t, id) && !Falls(v, s, e, t, id) {
      var i := StandingIsActive(v, w, t, id);
      ActiveHasKey(after, t, i);
    }
  }

  lemma UpsertMatches(v: View, w: Knowledge, s: Section, value: ItemInput, revision: nat)
    requires Matches(v, w)
    ensures Upsert(w, s, value, revision).Ok? <==> ValidItem(NewItem(value, 0))
    ensures Upsert(w, s, value, revision).Ok? ==> Matches(Put(v, s, value), Upsert(w, s, value, revision).value)
  {
    hide Matches, Upsert, FindActive, ValidItem, NewItem, HasEverySection, UniqueWithin;
    UpsertOk(w, s, value, revision);
    ValidWhenever(value, revision);
    if Upsert(w, s, value, revision).Ok? {
      MatchedParts(v, w);
      UpsertUnique(w, s, value, revision);
      var after := Upsert(w, s, value, revision).value;
      forall t, id
        ensures SameFound(Put(v, s, value)(t, id), FindActive(At(after, t), id))
      {
        UpsertFound(w, s, value, revision, t, id);
        MatchedAt(v, w, t, id);
        FoundHasId(At(after, t), id);
        NewItemId(value);
      }
      MatchesIntro(Put(v, s, value), after);
    }
  }

  lemma FoundHasId(items: seq<Item>, id: Id)
    ensures FindActive(items, id).Some? ==> FindActive(items, id).value.id == id
  {
    if FindActive(items, id).Some? {
      var i := FoundHere(items, id);
    }
  }

  lemma NewItemId(value: ItemInput)
    ensures NewItem(value, 0).id == value.id && NewItem(value, 0).active && Deps(NewItem(value, 0)) == Needs(value)
  {
  }

  lemma OwnViewMatches(k: Knowledge)
    requires HasEverySection(k) && UniqueActive(k)
    ensures Matches(ViewOf(k), k)
  {
    hide HasEverySection, FindActive;
    assert UniqueWithin(k) by {
      WithinUnique(k);
    }
  }

  lemma WithinUnique(k: Knowledge)
    requires UniqueActive(k)
    ensures UniqueWithin(k)
  {
  }

  lemma OperationMatches(t: Target, v: View, w: Draft, op: Operation, revision: nat)
    requires Matches(v, w.knowledge)
    ensures var r := ApplyOperation(t, w, op, revision);
      && (r.Ok? <==> CanApply(t, v, op))
      && (r.Ok? ==> Matches(After(v, op), r.value.knowledge))
  {
    hide Matches, Supersede, Upsert, DecompositionOk, ValidItem, NewItem, Put, Without, Stands;
    match op
    case UpsertKnowledge(s, value) => UpsertMatches(v, w.knowledge, s, value, revision);
    case SupersedeKnowledge(s, id, heir) => SupersedeMatches(v, w.knowledge, s, id, heir, revision);
    case InvalidateEvidence(id, heir) => SupersedeMatches(v, w.knowledge, EvidenceClaims, id, heir, revision);
    case RecordProbe(_) =>
    case ProposeDecomposition(_) =>
  }

  lemma EachMore(t: Target, k: Knowledge, ops: seq<Operation>)
    requires ops != []
    ensures var n := |ops| - 1;
      EachApplies(t, k, ops) <==> EachApplies(t, k, ops[..n]) && CanApply(t, ViewAfter(k, ops[..n]), ops[n])
  {
    hide CanApply, ViewAfter;
    var n := |ops| - 1;
    forall i | 0 <= i < n
      ensures ops[..n][..i] == ops[..i] && ops[..n][i] == ops[i]
    {
    }
    if EachApplies(t, k, ops) {
      forall i | 0 <= i < n
        ensures CanApply(t, ViewAfter(k, ops[..n][..i]), ops[..n][i])
      {
        assert CanApply(t, ViewAfter(k, ops[..i]), ops[i]);
      }
    }
    if EachApplies(t, k, ops[..n]) && CanApply(t, ViewAfter(k, ops[..n]), ops[n]) {
      forall i | 0 <= i < |ops|
        ensures CanApply(t, ViewAfter(k, ops[..i]), ops[i])
      {
        if i < n {
          assert CanApply(t, ViewAfter(k, ops[..n][..i]), ops[..n][i]);
        }
      }
    }
  }

  /** A list of operations applies exactly when each can apply to what stands before it, and the knowledge it leaves is
      what stands after it. */
  lemma {:induction false} OperationsMatch(t: Target, start: Draft, ops: seq<Operation>, revision: nat)
    requires UniqueActive(start.knowledge) && HasEverySection(start.knowledge)
    ensures var r := ApplyOperations(t, start, ops, revision);
      && (r.Ok? <==> EachApplies(t, start.knowledge, ops))
      && (r.Ok? ==> Matches(ViewAfter(start.knowledge, ops), r.value.knowledge))
      && (r.Ok? ==> r.value.probe == LastProbe(start.probe, ops))
  {
    hide UniqueActive, HasEverySection, Matches, EachApplies, CanApply, After, Supersede, Upsert, DecompositionOk;
    if ops == [] {
      OwnViewMatches(start.knowledge);
      assert EachApplies(t, start.knowledge, []) by {
        NothingToApply(t, start.knowledge);
      }
    } else {
      var n := |ops| - 1;
      OperationsMatch(t, start, ops[..n], revision);
      EachMore(t, start.knowledge, ops);
      var before := ApplyOperations(t, start, ops[..n], revision);
      if before.Ok? {
        OperationMatches(t, ViewAfter(start.knowledge, ops[..n]), before.value, ops[n], revision);
      }
    }
  }

  lemma NothingToApply(t: Target, k: Knowledge)
    ensures EachApplies(t, k, [])
  {
  }

  // The contract, read off the view.

  ghost predicate OneSection(v: View) {
    forall s, t, id :: Stands(v, s, id) && Stands(v, t, id) ==> s == t
  }

  ghost predicate DependenciesStand(v: View) {
    forall s, id, d :: Stands(v, s, id) && d in Deps(v(s, id).value) ==> StandsId(v, d)
  }

  predicate EvidenceIsCurrent(k: Knowledge, probe: Probe) {
    forall item :: item in At(k, EvidenceClaims) && item.active ==> EvidenceCurrent(item, probe)
  }

  ghost predicate EvidenceStands(v: View, probe: Probe) {
    forall id :: Stands(v, EvidenceClaims, id) ==> EvidenceCurrent(v(EvidenceClaims, id).value, probe)
  }

  lemma MatchedId(v: View, w: Knowledge, id: Id)
    requires Matches(v, w)
    ensures StandsId(v, id) <==> ActiveId(w, id)
  {
    hide Matches, SameContent, FindActive;
    if s :| Stands(v, s, id) {
      var i := StandingIsActive(v, w, s, id);
    }
    if s, i :| ActiveAt(w, s, i) && w[s][i].id == id {
      ActiveStands(v, w, s, i);
    }
  }

  lemma MatchedUnique(v: View, w: Knowledge)
    requires Matches(v, w)
    ensures UniqueActive(w) <==> OneSection(v)
  {
    hide Matches, SameContent, FindActive;
    if UniqueActive(w) {
      forall s, t, id | Stands(v, s, id) && Stands(v, t, id)
        ensures s == t
      {
        var i := StandingIsActive(v, w, s, id);
        var j := StandingIsActive(v, w, t, id);
        UniqueAt(w, s, i, t, j);
      }
    }
    if OneSection(v) {
      MatchedParts(v, w);
      forall s, i, t, j | ActiveAt(w, s, i) && ActiveAt(w, t, j) && w[s][i].id == w[t][j].id
        ensures s == t && i == j
      {
        ActiveStands(v, w, s, i);
        ActiveStands(v, w, t, j);
      }
    }
  }

  lemma MatchedDependencies(v: View, w: Knowledge)
    requires Matches(v, w)
    ensures DependenciesActive(w) <==> DependenciesStand(v)
  {
    hide Matches, SameContent, FindActive, StandsId, ActiveId, Deps;
    forall id
      ensures StandsId(v, id) <==> ActiveId(w, id)
    {
      MatchedId(v, w, id);
    }
    if DependenciesActive(w) {
      forall s, id, d | Stands(v, s, id) && d in Deps(v(s, id).value)
        ensures StandsId(v, d)
      {
        var i := StandingIsActive(v, w, s, id);
      }
    }
    if DependenciesStand(v) {
      forall s, i, d | ActiveAt(w, s, i) && d in Deps(w[s][i])
        ensures ActiveId(w, d)
      {
        ActiveStands(v, w, s, i);
      }
    }
  }

  lemma SameContentCurrent(a: Item, b: Item, probe: Probe)
    requires SameContent(a, b)
    ensures EvidenceCurrent(a, probe) <==> EvidenceCurrent(b, probe)
  {
  }

  lemma MatchedEvidence(v: View, w: Knowledge, probe: Probe)
    requires Matches(v, w)
    ensures EvidenceIsCurrent(w, probe) <==> EvidenceStands(v, probe)
  {
    hide Matches, SameContent, FindActive, EvidenceCurrent;
    if EvidenceIsCurrent(w, probe) {
      forall id | Stands(v, EvidenceClaims, id)
        ensures EvidenceCurrent(v(EvidenceClaims, id).value, probe)
      {
        var i := StandingIsActive(v, w, EvidenceClaims, id);
        SameContentCurrent(v(EvidenceClaims, id).value, w[EvidenceClaims][i], probe);
        assert w[EvidenceClaims][i] in At(w, EvidenceClaims);
      }
    }
    if EvidenceStands(v, probe) {
      forall item | item in At(w, EvidenceClaims) && item.active
        ensures EvidenceCurrent(item, probe)
      {
        var i :| 0 <= i < |w[EvidenceClaims]| && w[EvidenceClaims][i] == item;
        ActiveStands(v, w, EvidenceClaims, i);
        SameContentCurrent(v(EvidenceClaims, item.id).value, item, probe);
      }
    }
  }

  /** What stands meets the contract exactly when the knowledge does. */
  lemma MatchedContract(v: View, w: Knowledge, probe: Probe)
    requires Matches(v, w)
    ensures UniqueActive(w) && DependenciesActive(w) && EvidenceIsCurrent(w, probe) <==>
      OneSection(v) && DependenciesStand(v) && EvidenceStands(v, probe)
  {
    hide *;
    MatchedUnique(v, w);
    MatchedDependencies(v, w);
    MatchedEvidence(v, w, probe);
  }

  // From the view back to the operations.

  predicate WritesKey(op: Operation, s: Section, id: Id) {
    op.UpsertKnowledge? && op.section == s && op.value.id == id
  }

  predicate WritesId(op: Operation, id: Id) {
    op.UpsertKnowledge? && op.value.id == id
  }

  /** No operation from `m` on writes the key. */
  ghost predicate Unwritten(ops: seq<Operation>, m: nat, s: Section, id: Id) {
    forall i :: m <= i < |ops| ==> !WritesKey(ops[i], s, id)
  }

  /** Upsert `n` is the last under its key, and nothing took its item since. */
  ghost predicate Lasts(k: Knowledge, ops: seq<Operation>, n: int) {
    && 0 <= n < |ops| && ops[n].UpsertKnowledge?
    && Unwritten(ops, n + 1, ops[n].section, ops[n].value.id)
    && Stands(ViewAfter(k, ops), ops[n].section, ops[n].value.id)
  }

  /** The id stood when operation `n` came, or is written by it or a later one. */
  ghost predicate Provided(k: Knowledge, ops: seq<Operation>, n: int, d: Id)
    requires 0 <= n < |ops|
  {
    StandsId(ViewAfter(k, ops[..n]), d) || exists m :: n <= m < |ops| && WritesId(ops[m], d)
  }

  /** Whatever stands after an operation with a dependency that stood before it, still has it: a supersession that
      takes the dependency takes the dependent, too. */
  lemma DependencyStays(v: View, op: Operation, s: Section, id: Id, d: Id)
    requires Stands(v, s, id) && After(v, op)(s, id) == v(s, id) && d in Deps(v(s, id).value) && StandsId(v, d)
    ensures StandsId(After(v, op), d)
  {
    hide Deps, NewItem;
    match op
    case UpsertKnowledge(u, value) =>
      var t :| Stands(v, t, d);
      assert Stands(Put(v, u, value), t, d);
    case SupersedeKnowledge(u, e, _) => DependencyOutlives(v, u, e, s, id, d);
    case InvalidateEvidence(e, _) => DependencyOutlives(v, EvidenceClaims, e, s, id, d);
    case RecordProbe(_) =>
    case ProposeDecomposition(_) =>
  }

  lemma DependencyOutlives(v: View, u: Section, e: Id, s: Section, id: Id, d: Id)
    requires Stands(v, s, id) && Without(v, u, e)(s, id) == v(s, id) && d in Deps(v(s, id).value) && StandsId(v, d)
    ensures StandsId(Without(v, u, e), d)
  {
    hide Deps, Falls, ReliesOn;
    var t :| Stands(v, t, d);
    if Falls(v, u, e, t, d) {
      FallenRelies(v, u, e, t, d);
      DependentFalls(v, u, e, s, id, d);
      assert false;
    }
    assert Stands(Without(v, u, e), t, d);
  }

  lemma FallenRelies(v: View, s: Section, e: Id, t: Section, id: Id)
    requires Falls(v, s, e, t, id)
    ensures ReliesOn(v, id, e)
  {
    hide Deps;
    if t == s && id == e {
      assert LeadsTo(v, [id], e);
    } else {
      var b :| b in Deps(v(t, id).value) && ReliesOn(v, b, e);
      assert RestsOn(v, id, b);
      RelyThrough(v, id, b, e);
    }
  }

  lemma DependentFalls(v: View, s: Section, e: Id, t: Section, id: Id, d: Id)
    requires Stands(v, t, id) && d in Deps(v(t, id).value) && ReliesOn(v, d, e)
    ensures Falls(v, s, e, t, id)
  {
  }

  lemma RelyThrough(v: View, a: Id, b: Id, e: Id)
    requires RestsOn(v, a, b) && ReliesOn(v, b, e)
    ensures ReliesOn(v, a, e)
  {
    hide RestsOn;
    var p :| LeadsTo(v, p, e) && p[0] == b;
    var q := [a] + p;
    forall i | 0 <= i < |q| - 1
      ensures RestsOn(v, q[i], q[i + 1])
    {
      if i > 0 {
        assert RestsOn(v, p[i - 1], p[i]);
      }
    }
    assert LeadsTo(v, q, e) && q[0] == a;
  }

  /** An operation leaves a key it does not write as it was, or empties it. */
  lemma OtherKeyAfter(v: View, op: Operation, s: Section, id: Id)
    requires !WritesKey(op, s, id)
    ensures After(v, op)(s, id) in {None, v(s, id)}
  {
    hide Falls;
  }

  lemma OtherIdAfter(v: View, op: Operation, id: Id)
    requires !WritesId(op, id) && !StandsId(v, id)
    ensures !StandsId(After(v, op), id)
  {
    hide After;
    forall s
      ensures !Stands(After(v, op), s, id)
    {
      OtherKeyAfter(v, op, s, id);
      assert !Stands(v, s, id);
    }
  }

  /** What stands at the end under a key nobody wrote since, stood all the time with the same content, and a dependency
      it once had is still there. */
  lemma {:induction false} StandsSince(k: Knowledge, ops: seq<Operation>, m: nat, s: Section, id: Id)
    requires m <= |ops| && Unwritten(ops, m, s, id) && Stands(ViewAfter(k, ops), s, id)
    ensures ViewAfter(k, ops[..m])(s, id) == ViewAfter(k, ops)(s, id)
    ensures forall d :: d in Deps(ViewAfter(k, ops)(s, id).value) && StandsId(ViewAfter(k, ops[..m]), d) ==>
      StandsId(ViewAfter(k, ops), d)
    decreases |ops|
  {
    hide After, Deps, StandsId;
    if m == |ops| {
      assert ops[..m] == ops;
    } else {
      var n := |ops| - 1;
      assert ops[..n][..m] == ops[..m];
      OtherKeyAfter(ViewAfter(k, ops[..n]), ops[n], s, id);
      StandsSince(k, ops[..n], m, s, id);
      forall d | d in Deps(ViewAfter(k, ops)(s, id).value) && StandsId(ViewAfter(k, ops[..m]), d)
        ensures StandsId(ViewAfter(k, ops), d)
      {
        DependencyStays(ViewAfter(k, ops[..n]), ops[n], s, id, d);
      }
    }
  }

  lemma {:induction false} NeverStands(k: Knowledge, ops: seq<Operation>, m: nat, d: Id)
    requires m <= |ops| && !StandsId(ViewAfter(k, ops[..m]), d)
    requires forall i :: m <= i < |ops| ==> !WritesId(ops[i], d)
    ensures !StandsId(ViewAfter(k, ops), d)
    decreases |ops|
  {
    hide After, StandsId;
    if m == |ops| {
      assert ops[..m] == ops;
    } else {
      var n := |ops| - 1;
      assert ops[..n][..m] == ops[..m];
      NeverStands(k, ops[..n], m, d);
      OtherIdAfter(ViewAfter(k, ops[..n]), ops[n], d);
    }
  }

  /** Whatever stands was written last by some upsert, or by none. */
  lemma {:induction false} LastWrite(ops: seq<Operation>, s: Section, id: Id) returns (n: int)
    ensures -1 <= n < |ops| && Unwritten(ops, n + 1, s, id)
    ensures n >= 0 ==> WritesKey(ops[n], s, id)
  {
    n := |ops| - 1;
    while n >= 0 && !WritesKey(ops[n], s, id)
      invariant -1 <= n < |ops| && Unwritten(ops, n + 1, s, id)
    {
      n := n - 1;
    }
  }

  /** What a lasting upsert wrote stands, and stood from then on. */
  lemma WrittenStands(k: Knowledge, ops: seq<Operation>, n: int)
    requires Lasts(k, ops, n)
    ensures ViewAfter(k, ops)(ops[n].section, ops[n].value.id) == Some(NewItem(ops[n].value, 0))
    ensures Deps(NewItem(ops[n].value, 0)) == Needs(ops[n].value)
  {
    hide Stands, ValidItem, Trim;
    assert ops[..n + 1][..n] == ops[..n];
    StandsSince(k, ops, n + 1, ops[n].section, ops[n].value.id);
    NewItemId(ops[n].value);
  }

  /** The dependency of a lasting upsert stands in the end exactly if it was provided. */
  lemma NeedStands(k: Knowledge, ops: seq<Operation>, n: int, d: Id)
    requires Lasts(k, ops, n) && d in Needs(ops[n].value)
    ensures StandsId(ViewAfter(k, ops), d) <==> Provided(k, ops, n, d)
  {
    hide StandsId, ViewAfter, Needs, Deps, NewItem, Stands;
    var s, id := ops[n].section, ops[n].value.id;
    WrittenStands(k, ops, n);
    if StandsId(ViewAfter(k, ops[..n]), d) {
      PutKeeps(k, ops, n, d);
      StandsSince(k, ops, n + 1, s, id);
    } else if m :| n <= m < |ops| && WritesId(ops[m], d) {
      JustWritten(k, ops, m);
      StandsSince(k, ops, m + 1, s, id);
    } else {
      NeverStands(k, ops, n, d);
    }
  }

  lemma PutKeeps(k: Knowledge, ops: seq<Operation>, n: nat, d: Id)
    requires n < |ops| && ops[n].UpsertKnowledge? && StandsId(ViewAfter(k, ops[..n]), d)
    ensures StandsId(ViewAfter(k, ops[..n + 1]), d)
  {
    hide NewItem;
    assert ops[..n + 1][..n] == ops[..n];
    var t :| Stands(ViewAfter(k, ops[..n]), t, d);
    assert Stands(ViewAfter(k, ops[..n + 1]), t, d);
  }

  lemma JustWritten(k: Knowledge, ops: seq<Operation>, m: nat)
    requires m < |ops| && ops[m].UpsertKnowledge?
    ensures StandsId(ViewAfter(k, ops[..m + 1]), ops[m].value.id)
  {
    hide NewItem;
    assert ops[..m + 1][..m] == ops[..m];
    assert Stands(ViewAfter(k, ops[..m + 1]), ops[m].section, ops[m].value.id);
  }

  /** On knowledge whose dependencies are active, only lasting upserts can lack one. */
  lemma DependenciesByUpserts(k: Knowledge, ops: seq<Operation>)
    requires HasEverySection(k) && UniqueActive(k) && DependenciesActive(k)
    ensures DependenciesStand(ViewAfter(k, ops)) <==>
      forall n, d :: Lasts(k, ops, n) && d in Needs(ops[n].value) ==> Provided(k, ops, n, d)
  {
    hide HasEverySection, UniqueActive, DependenciesActive, ViewAfter, StandsId, Needs, Deps, Provided, NewItem;
    var v := ViewAfter(k, ops);
    if DependenciesStand(v) {
      forall n, d | Lasts(k, ops, n) && d in Needs(ops[n].value)
        ensures Provided(k, ops, n, d)
      {
        WrittenStands(k, ops, n);
        NeedStands(k, ops, n, d);
      }
    }
    if forall n, d :: Lasts(k, ops, n) && d in Needs(ops[n].value) ==> Provided(k, ops, n, d) {
      forall s, id, d | Stands(v, s, id) && d in Deps(v(s, id).value)
        ensures StandsId(v, d)
      {
        var n := LastWrite(ops, s, id);
        if n >= 0 {
          assert Lasts(k, ops, n);
          WrittenStands(k, ops, n);
          NeedStands(k, ops, n, d);
        } else {
          OldDependencyStands(k, ops, s, id, d);
        }
      }
    }
  }

  lemma OldDependencyStands(k: Knowledge, ops: seq<Operation>, s: Section, id: Id, d: Id)
    requires HasEverySection(k) && UniqueActive(k) && DependenciesActive(k)
    requires Unwritten(ops, 0, s, id) && Stands(ViewAfter(k, ops), s, id) && d in Deps(ViewAfter(k, ops)(s, id).value)
    ensures StandsId(ViewAfter(k, ops), d)
  {
    hide HasEverySection, UniqueActive, DependenciesActive, After, StandsId, Deps, Matches, ViewOf;
    assert ops[..0] == [];
    StandsSince(k, ops, 0, s, id);
    OwnViewMatches(k);
    MatchedDependencies(ViewOf(k), k);
  }

  // What the contract asks of each upsert, and of the evidence that was there.

  /** A lasting upsert fits: its id stands in no other section, what it needs is provided, and evidence belongs to the
      probe. */
  ghost predicate UpsertFits(k: Knowledge, ops: seq<Operation>, n: int, probe: Probe)
    requires 0 <= n < |ops| && ops[n].UpsertKnowledge?
  {
    && (forall t :: t != ops[n].section ==> !Stands(ViewAfter(k, ops), t, ops[n].value.id))
    && (forall d :: d in Needs(ops[n].value) ==> Provided(k, ops, n, d))
    && (ops[n].section == EvidenceClaims ==> EvidenceCurrent(NewItem(ops[n].value, 0), probe))
  }

  /** The evidence of `k` that nobody wrote anew belongs to the probe, or is gone. */
  ghost predicate EvidenceLeftFits(k: Knowledge, ops: seq<Operation>, probe: Probe) {
    forall i :: ActiveAt(k, EvidenceClaims, i) && OldStands(k, ops, k[EvidenceClaims][i].id) ==>
      EvidenceCurrent(k[EvidenceClaims][i], probe)
  }

  ghost predicate OperationsFit(k: Knowledge, ops: seq<Operation>, probe: Probe) {
    && (forall n :: Lasts(k, ops, n) ==> UpsertFits(k, ops, n, probe))
    && EvidenceLeftFits(k, ops, probe)
  }

  lemma SectionsByUpserts(k: Knowledge, ops: seq<Operation>)
    requires HasEverySection(k) && UniqueActive(k)
    ensures OneSection(ViewAfter(k, ops)) <==>
      forall n, t :: Lasts(k, ops, n) && t != ops[n].section ==> !Stands(ViewAfter(k, ops), t, ops[n].value.id)
  {
    hide HasEverySection, UniqueActive, After, Matches, ViewOf, ViewAfter;
    var v := ViewAfter(k, ops);
    if forall n, t :: Lasts(k, ops, n) && t != ops[n].section ==> !Stands(v, t, ops[n].value.id) {
      forall s, t, id | Stands(v, s, id) && Stands(v, t, id)
        ensures s == t
      {
        var m := LastWrite(ops, s, id);
        var n := LastWrite(ops, t, id);
        if m >= 0 {
          assert Lasts(k, ops, m);
        } else if n >= 0 {
          assert Lasts(k, ops, n);
        } else {
          OldSections(k, ops, s, t, id);
        }
      }
    }
  }

  lemma OldSections(k: Knowledge, ops: seq<Operation>, s: Section, t: Section, id: Id)
    requires HasEverySection(k) && UniqueActive(k)
    requires Unwritten(ops, 0, s, id) && Stands(ViewAfter(k, ops), s, id)
    requires Unwritten(ops, 0, t, id) && Stands(ViewAfter(k, ops), t, id)
    ensures s == t
  {
    hide HasEverySection, UniqueActive, After, Matches, ViewOf;
    assert ops[..0] == [];
    StandsSince(k, ops, 0, s, id);
    StandsSince(k, ops, 0, t, id);
    OwnViewMatches(k);
    MatchedUnique(ViewOf(k), k);
  }

  lemma EvidenceByUpserts(k: Knowledge, ops: seq<Operation>, probe: Probe)
    requires HasEverySection(k) && UniqueActive(k)
    ensures EvidenceStands(ViewAfter(k, ops), probe) <==>
      ((forall n :: Lasts(k, ops, n) && ops[n].section == EvidenceClaims ==>
        EvidenceCurrent(NewItem(ops[n].value, 0), probe))
       && EvidenceLeftFits(k, ops, probe))
  {
    hide HasEverySection, UniqueActive, ViewAfter, NewItem, EvidenceCurrent;
    var v := ViewAfter(k, ops);
    if EvidenceStands(v, probe) {
      forall n | Lasts(k, ops, n) && ops[n].section == EvidenceClaims
        ensures EvidenceCurrent(NewItem(ops[n].value, 0), probe)
      {
        WrittenStands(k, ops, n);
      }
      forall i | ActiveAt(k, EvidenceClaims, i) && OldStands(k, ops, k[EvidenceClaims][i].id)
        ensures EvidenceCurrent(k[EvidenceClaims][i], probe)
      {
        OldIsSame(k, ops, i);
      }
    }
    if EvidenceLeftFits(k, ops, probe) && forall n :: Lasts(k, ops, n) && ops[n].section == EvidenceClaims ==>
      EvidenceCurrent(NewItem(ops[n].value, 0), probe) {
      forall id | Stands(v, EvidenceClaims, id)
        ensures EvidenceCurrent(v(EvidenceClaims, id).value, probe)
      {
        var n := LastWrite(ops, EvidenceClaims, id);
        if n >= 0 {
          assert Lasts(k, ops, n);
          WrittenStands(k, ops, n);
        } else {
          var i := OldPlace(k, ops, id);
          OldIsSame(k, ops, i);
        }
      }
    }
  }

  ghost predicate OldStands(k: Knowledge, ops: seq<Operation>, id: Id) {
    Unwritten(ops, 0, EvidenceClaims, id) && Stands(ViewAfter(k, ops), EvidenceClaims, id)
  }

  lemma OldPlace(k: Knowledge, ops: seq<Operation>, id: Id) returns (i: nat)
    requires OldStands(k, ops, id)
    ensures ActiveAt(k, EvidenceClaims, i) && k[EvidenceClaims][i].id == id
  {
    hide After, FindActive;
    assert ops[..0] == [];
    StandsSince(k, ops, 0, EvidenceClaims, id);
    i := KeyIsActive(k, EvidenceClaims, id);
  }

  lemma OldIsSame(k: Knowledge, ops: seq<Operation>, i: int)
    requires HasEverySection(k) && UniqueActive(k)
    requires ActiveAt(k, EvidenceClaims, i) && OldStands(k, ops, k[EvidenceClaims][i].id)
    ensures ViewAfter(k, ops)(EvidenceClaims, k[EvidenceClaims][i].id) == Some(k[EvidenceClaims][i])
  {
    hide HasEverySection, UniqueActive, After, Matches, FindActive;
    assert ops[..0] == [];
    StandsSince(k, ops, 0, EvidenceClaims, k[EvidenceClaims][i].id);
    OwnViewMatches(k);
    ActiveStands(ViewOf(k), k, EvidenceClaims, i);
  }

  /** So on sound knowledge the contract is a matter of the lasting upserts and of the evidence that was there. */
  lemma ContractByUpserts(k: Knowledge, ops: seq<Operation>, probe: Probe)
    requires HasEverySection(k) && UniqueActive(k) && DependenciesActive(k)
    ensures OperationsFit(k, ops, probe) <==>
      OneSection(ViewAfter(k, ops)) && DependenciesStand(ViewAfter(k, ops)) && EvidenceStands(ViewAfter(k, ops), probe)
  {
    hide HasEverySection, UniqueActive, DependenciesActive, ViewAfter, OneSection, DependenciesStand, EvidenceStands,
      Lasts, Provided, Stands, Needs, EvidenceCurrent, NewItem, EvidenceLeftFits;
    SectionsByUpserts(k, ops);
    DependenciesByUpserts(k, ops);
    EvidenceByUpserts(k, ops, probe);
  }
}
