/** Choosing the target of an execution: the best eligible model of any provider, whatever order they are listed in. */
module ExecutionPolicy {
  import opened Wrappers
  import opened Sorting
  import opened ExecutionTypes

  datatype Provider = Claude | Codex | Kimi | Zai

  type ModelId = string

  datatype ModelPolicy = ModelPolicy(id: ModelId, enabled: bool, priority: int)

  datatype ProviderPolicy = ProviderPolicy(
    provider: Provider, enabled: bool, priority: int, capabilities: seq<Capability>, permissions: seq<Permission>,
    models: seq<ModelPolicy>)

  datatype Requirements = Requirements(capabilities: seq<Capability>, permissions: seq<Permission>)

  /** A target the user can choose; the adapter follows from the provider. */
  datatype Target = Target(provider: Provider, model: ModelId)

  datatype Health = Health(target: Target, healthy: bool, capabilities: seq<Capability>)

  datatype Ineligibility = NotAllowed | Disabled | Unhealthy | MissingCapability | MissingPermission | ModelDisabled

  datatype Candidate = Candidate(target: Target, reasons: seq<Ineligibility>, providerPriority: int, modelPriority: int)

  datatype PolicyError = InvalidRequirements | InvalidHealth

  type Collation = (ModelId, ModelId) -> int

  /** One entry a target, and no capability named twice. */
  predicate ValidHealth(health: seq<Health>) {
    && (forall i :: 0 <= i < |health| ==> NoRepeats(health[i].capabilities))
    && (forall i, j :: 0 <= i < j < |health| ==> health[i].target != health[j].target)
  }

  method ValidateTargetHealth(health: seq<Health>) returns (ok: bool)
    ensures ok <==> ValidHealth(health)
  {
    var seen: set<Target> := {};
    var i := 0;
    hide NoRepeats;
    while i < |health|
      invariant 0 <= i <= |health|
      invariant forall t :: t in seen <==> exists j :: 0 <= j < i && health[j].target == t
      invariant ValidHealth(health[..i])
    {
      if !NoRepeats(health[i].capabilities) || health[i].target in seen {
        return false;
      }
      seen := seen + {health[i].target};
      assert forall j :: 0 <= j < i ==> health[..i][j] == health[j];
      i := i + 1;
    }
    assert health[..i] == health;
    return true;
  }

  /** Providers and the models of each are named once. */
  predicate ValidPolicy(providers: seq<ProviderPolicy>) {
    && (forall i, j :: 0 <= i < j < |providers| ==> providers[i].provider != providers[j].provider)
    && (forall i :: 0 <= i < |providers| ==>
         forall j, k :: 0 <= j < k < |providers[i].models| ==> providers[i].models[j].id != providers[i].models[k].id)
  }

  predicate IncludesAll<T(==)>(granted: seq<T>, required: seq<T>) {
    forall r :: r in required ==> r in granted
  }

  function HealthOf(health: seq<Health>, target: Target): (r: Option<Health>)
    ensures r.Some? ==> r.value in health && r.value.target == target
    ensures r.None? ==> forall h :: h in health ==> h.target != target
  {
    if health == [] then None
    else if health[|health| - 1].target == target then Some(health[|health| - 1])
    else HealthOf(health[..|health| - 1], target)
  }

  // Eligibility.

  function When(condition: bool, reason: Ineligibility): seq<Ineligibility> {
    if condition then [reason] else []
  }

  function ReportReasons(p: ProviderPolicy, req: Requirements, health: Option<Health>): seq<Ineligibility> {
    if health.None? then [NotAllowed]
    else
      When(!health.value.healthy, Unhealthy)
      + When(!IncludesAll(p.capabilities, req.capabilities) ||
        !IncludesAll(health.value.capabilities, req.capabilities), MissingCapability)
  }

  function ReasonsFor(p: ProviderPolicy, m: ModelPolicy, req: Requirements,
        health: Option<Health>): seq<Ineligibility> {
    When(!p.enabled, Disabled) + When(!m.enabled, ModelDisabled) + ReportReasons(p, req, health)
    + When(!IncludesAll(p.permissions, req.permissions), MissingPermission)
  }

  /** Nothing speaks against the target. */
  predicate Eligible(p: ProviderPolicy, m: ModelPolicy, req: Requirements, health: Option<Health>) {
    && p.enabled && m.enabled
    && health.Some? && health.value.healthy
    && IncludesAll(p.capabilities, req.capabilities) && IncludesAll(health.value.capabilities, req.capabilities)
    && IncludesAll(p.permissions, req.permissions)
  }

  function TargetOf(p: ProviderPolicy, m: ModelPolicy): Target {
    Target(p.provider, m.id)
  }

  function Evaluated(p: ProviderPolicy, m: ModelPolicy, req: Requirements, health: seq<Health>): Candidate {
    Candidate(TargetOf(p, m), ReasonsFor(p, m, req, HealthOf(health, TargetOf(p, m))), p.priority, m.priority)
  }

  /** The reasons, pushed one after the other: none exactly for an eligible target. */
  method TargetEligibilityFor(p: ProviderPolicy, m: ModelPolicy, req: Requirements,
        health: Option<Health>) returns (candidate: Candidate)
    ensures candidate == Candidate(TargetOf(p, m), ReasonsFor(p, m, req, health), p.priority, m.priority)
    ensures candidate.reasons == [] <==> Eligible(p, m, req, health)
  {
    hide IncludesAll;
    NoReasonMeansEligible(p, m, req, health);
    var reasons: seq<Ineligibility> := [];
    if !p.enabled {
      reasons := reasons + [Disabled];
    }
    assert reasons == When(!p.enabled, Disabled);
    if !m.enabled {
      reasons := reasons + [ModelDisabled];
    }
    assert reasons == When(!p.enabled, Disabled) + When(!m.enabled, ModelDisabled);
    ghost var before := reasons;
    if health.None? {
      reasons := reasons + [NotAllowed];
    } else {
      if !health.value.healthy {
        reasons := reasons + [Unhealthy];
      }
      assert reasons == before + When(!health.value.healthy, Unhealthy);
      if !IncludesAll(p.capabilities, req.capabilities) || !IncludesAll(health.value.capabilities, req.capabilities) {
        reasons := reasons + [MissingCapability];
      }
    }
    assert reasons == before + ReportReasons(p, req, health);
    if !IncludesAll(p.permissions, req.permissions) {
      reasons := reasons + [MissingPermission];
    }
    candidate := Candidate(TargetOf(p, m), reasons, p.priority, m.priority);
  }

  lemma NoReasonMeansEligible(p: ProviderPolicy, m: ModelPolicy, req: Requirements, health: Option<Health>)
    ensures ReasonsFor(p, m, req, health) == [] <==> Eligible(p, m, req, health)
  {
  }

  // Comparison.

  function Rank(p: Provider): int {
    match p
    case Claude => 0
    case Codex => 1
    case Kimi => 2
    case Zai => 3
  }

  /** Eligible ones first, then by the priorities, higher first, then by name. */
  predicate Precedes(a: Candidate, b: Candidate, collate: Collation) {
    if (a.reasons == []) != (b.reasons == []) then a.reasons == []
    else if a.providerPriority != b.providerPriority then a.providerPriority > b.providerPriority
    else if a.modelPriority != b.modelPriority then a.modelPriority > b.modelPriority
    else if a.target.provider != b.target.provider then Rank(a.target.provider) <= Rank(b.target.provider)
    else collate(a.target.model, b.target.model) <= 0
  }

  function Ranking(collate: Collation): (Candidate, Candidate) -> bool {
    (a: Candidate, b: Candidate) => Precedes(a, b, collate)
  }

  /** The collation compares all model ids consistently; it may tie different ones. */
  ghost predicate Compares(collate: Collation) {
    && (forall a, b :: collate(a, b) <= 0 || collate(b, a) <= 0)
    && (forall a, b, c :: collate(a, b) <= 0 && collate(b, c) <= 0 ==> collate(a, c) <= 0)
  }

  predicate Tied(collate: Collation, a: ModelId, b: ModelId) {
    collate(a, b) <= 0 && collate(b, a) <= 0
  }

  lemma RankingIsTotal(collate: Collation)
    requires Compares(collate)
    ensures TotalPreorder(Ranking(collate))
  {
    var leq := Ranking(collate);
    forall a, b
      ensures leq(a, b) || leq(b, a)
    {
    }
    forall a, b, c | leq(a, b) && leq(b, c)
      ensures leq(a, c)
    {
      PrecedesTrans(a, b, c, collate);
    }
  }

  lemma PrecedesTrans(a: Candidate, b: Candidate, c: Candidate, collate: Collation)
    requires Compares(collate) && Precedes(a, b, collate) && Precedes(b, c, collate)
    ensures Precedes(a, c, collate)
  {
  }

  // Selection.

  function OfModels(p: ProviderPolicy, models: seq<ModelPolicy>, req: Requirements,
        health: seq<Health>): seq<Candidate> {
    if models == [] then [] else [Evaluated(p, models[0], req, health)] + OfModels(p, models[1..], req, health)
  }

  function CandidatesOf(providers: seq<ProviderPolicy>, req: Requirements, health: seq<Health>): seq<Candidate> {
    if providers == [] then []
    else OfModels(providers[0], providers[0].models, req, health) + CandidatesOf(providers[1..], req, health)
  }

  function FirstEligible(candidates: seq<Candidate>): Option<Target> {
    if candidates == [] then None
    else if candidates[0].reasons == [] then Some(candidates[0].target)
    else FirstEligible(candidates[1..])
  }

  function SelectBestEligibleTarget(providers: seq<ProviderPolicy>, req: Requirements, health: seq<Health>,
        collate: Collation): Result<Option<Target>, PolicyError> {
    if !NoRepeats(req.capabilities) || !NoRepeats(req.permissions) then Err(InvalidRequirements)
    else if !ValidHealth(health) then Err(InvalidHealth)
    else Ok(FirstEligible(SortBy(CandidatesOf(providers, req, health), Ranking(collate))))
  }

  /** The policy offers this model of this provider. */
  predicate Offers(providers: seq<ProviderPolicy>, p: ProviderPolicy, m: ModelPolicy) {
    p in providers && m in p.models
  }

  ghost predicate EligibleOffer(providers: seq<ProviderPolicy>, req: Requirements, health: seq<Health>,
        p: ProviderPolicy, m: ModelPolicy) {
    Offers(providers, p, m) && Eligible(p, m, req, HealthOf(health, TargetOf(p, m)))
  }

  /** Eligible, and before every other eligible one. */
  ghost predicate BestOffer(providers: seq<ProviderPolicy>, req: Requirements, health: seq<Health>, collate: Collation,
        p: ProviderPolicy, m: ModelPolicy) {
    && EligibleOffer(providers, req, health, p, m)
    && forall q, n :: EligibleOffer(providers, req, health, q, n) ==>
         Precedes(Evaluated(p, m, req, health), Evaluated(q, n, req, health), collate)
  }

  lemma {:induction false} ModelCandidates(p: ProviderPolicy, models: seq<ModelPolicy>, req: Requirements,
        health: seq<Health>, c: Candidate)
    ensures c in OfModels(p, models, req, health) <==> exists m :: m in models && c == Evaluated(p, m, req, health)
  {
    hide Evaluated;
    if models != [] {
      ModelCandidates(p, models[1..], req, health, c);
      assert models == [models[0]] + models[1..];
    }
  }

  ghost predicate IsCandidate(providers: seq<ProviderPolicy>, req: Requirements, health: seq<Health>, c: Candidate) {
    exists p, m :: Offers(providers, p, m) && c == Evaluated(p, m, req, health)
  }

  lemma {:induction false} PolicyCandidates(providers: seq<ProviderPolicy>, req: Requirements, health: seq<Health>,
        c: Candidate)
    ensures c in CandidatesOf(providers, req, health) <==> IsCandidate(providers, req, health, c)
  {
    hide Evaluated, OfModels;
    if providers != [] {
      var first, rest := providers[0], providers[1..];
      PolicyCandidates(rest, req, health, c);
      ModelCandidates(first, first.models, req, health, c);
      if m :| m in first.models && c == Evaluated(first, m, req, health) {
        assert Offers(providers, first, m);
      }
      if p, m :| Offers(rest, p, m) && c == Evaluated(p, m, req, health) {
        assert Offers(providers, p, m);
      }
      if p, m :| Offers(providers, p, m) && c == Evaluated(p, m, req, health) {
        assert p == first || Offers(rest, p, m);
      }
    }
  }

  /** Index `i` holds the first candidate with nothing against it. */
  predicate FirstAt(candidates: seq<Candidate>, i: int) {
    && 0 <= i < |candidates| && candidates[i].reasons == []
    && forall j :: 0 <= j < i ==> candidates[j].reasons != []
  }

  lemma {:induction false} FirstEligibleFound(candidates: seq<Candidate>)
    ensures var r := FirstEligible(candidates);
      if r.Some? then exists i :: FirstAt(candidates, i) && candidates[i].target == r.value
      else forall c :: c in candidates ==> c.reasons != []
  {
    if candidates != [] {
      if candidates[0].reasons == [] {
        assert FirstAt(candidates, 0);
      } else {
        FirstEligibleFound(candidates[1..]);
        if FirstEligible(candidates).Some? {
          var i :| FirstAt(candidates[1..], i) && candidates[1..][i].target == FirstEligible(candidates).value;
          forall j | 0 <= j < i + 1
            ensures candidates[j].reasons != []
          {
            if j > 0 {
              assert candidates[j] == candidates[1..][j - 1];
            }
          }
          assert FirstAt(candidates, i + 1);
        }
      }
    }
  }

  lemma EligibleCandidate(providers: seq<ProviderPolicy>, req: Requirements, health: seq<Health>, p: ProviderPolicy,
        m: ModelPolicy)
    ensures Evaluated(p, m, req, health).reasons == [] <==> Eligible(p, m, req, HealthOf(health, TargetOf(p, m)))
  {
    NoReasonMeansEligible(p, m, req, HealthOf(health, TargetOf(p, m)));
  }

  /** Whatever the comparison: the choice is eligible, and there is none only if nothing is. */
  lemma SelectionIsEligible(providers: seq<ProviderPolicy>, req: Requirements, health: seq<Health>, collate: Collation)
    requires SelectBestEligibleTarget(providers, req, health, collate).Ok?
    ensures var r := SelectBestEligibleTarget(providers, req, health, collate).value;
      if r.Some? then exists p, m :: EligibleOffer(providers, req, health, p, m) && TargetOf(p, m) == r.value
      else forall p, m :: !EligibleOffer(providers, req, health, p, m)
  {
    hide SortBy, CandidatesOf, Evaluated, Eligible, FirstEligible;
    var candidates := CandidatesOf(providers, req, health);
    var ranked := SortBy(candidates, Ranking(collate));
    SameElements(ranked, candidates);
    FirstEligibleFound(ranked);
    forall p, m | EligibleOffer(providers, req, health, p, m)
      ensures Evaluated(p, m, req, health) in ranked && Evaluated(p, m, req, health).reasons == []
    {
      EligibleListed(providers, req, health, p, m);
    }
    if FirstEligible(ranked).Some? {
      var i :| FirstAt(ranked, i) && ranked[i].target == FirstEligible(ranked).value;
      var p, m := CandidateOffered(providers, req, health, ranked[i]);
    }
  }

  lemma EligibleListed(providers: seq<ProviderPolicy>, req: Requirements, health: seq<Health>, p: ProviderPolicy,
        m: ModelPolicy)
    requires EligibleOffer(providers, req, health, p, m)
    ensures Evaluated(p, m, req, health) in CandidatesOf(providers, req, health)
    ensures Evaluated(p, m, req, health).reasons == []
  {
    hide Evaluated, CandidatesOf, Eligible;
    EligibleCandidate(providers, req, health, p, m);
    PolicyCandidates(providers, req, health, Evaluated(p, m, req, health));
    assert IsCandidate(providers, req, health, Evaluated(p, m, req, health));
  }

  /** A candidate with nothing against it is an eligible offer. */
  lemma CandidateOffered(providers: seq<ProviderPolicy>, req: Requirements, health: seq<Health>, c: Candidate)
      returns (p: ProviderPolicy, m: ModelPolicy)
    requires c in CandidatesOf(providers, req, health) && c.reasons == []
    ensures EligibleOffer(providers, req, health, p, m) && c == Evaluated(p, m, req, health)
    ensures TargetOf(p, m) == c.target
  {
    hide CandidatesOf, Evaluated, Eligible;
    PolicyCandidates(providers, req, health, c);
    p, m :| Offers(providers, p, m) && c == Evaluated(p, m, req, health);
    EligibleCandidate(providers, req, health, p, m);
    EvaluatedTarget(p, m, req, health);
  }

  /** No one else is better: neither its provider nor, within the same priority, its model asks for more, and where both
      are equal the names come later. */
  ghost predicate Unbeaten(p: ProviderPolicy, m: ModelPolicy, q: ProviderPolicy, n: ModelPolicy, collate: Collation) {
    || q.priority < p.priority
    || (q.priority == p.priority && n.priority < m.priority)
    || (q.priority == p.priority && n.priority == m.priority && NamedBefore(p.provider, q.provider))
    || (q.priority == p.priority && n.priority == m.priority && p.provider == q.provider && collate(m.id, n.id) <= 0)
  }

  /** In the order of their names. */
  predicate NamedBefore(a: Provider, b: Provider) {
    match a
    case Claude => !b.Claude?
    case Codex => b.Kimi? || b.Zai?
    case Kimi => b.Zai?
    case Zai => false
  }

  lemma BestIsUnbeaten(providers: seq<ProviderPolicy>, req: Requirements, health: seq<Health>, collate: Collation,
        p: ProviderPolicy, m: ModelPolicy, q: ProviderPolicy, n: ModelPolicy)
    requires BestOffer(providers, req, health, collate, p, m) && EligibleOffer(providers, req, health, q, n)
    ensures Unbeaten(p, m, q, n, collate)
  {
    hide HealthOf, IncludesAll, Offers;
    EligibleCandidate(providers, req, health, p, m);
    EligibleCandidate(providers, req, health, q, n);
    assert Precedes(Evaluated(p, m, req, health), Evaluated(q, n, req, health), collate);
  }

  /** Where the comparison is consistent, the choice is the best eligible target. */
  lemma SelectionIsBest(providers: seq<ProviderPolicy>, req: Requirements, health: seq<Health>, collate: Collation)
    requires Compares(collate) && SelectBestEligibleTarget(providers, req, health, collate).Ok?
    ensures var r := SelectBestEligibleTarget(providers, req, health, collate).value;
      if r.Some? then exists p, m :: BestOffer(providers, req, health, collate, p, m) && TargetOf(p, m) == r.value
      else forall p, m :: !EligibleOffer(providers, req, health, p, m)
    ensures forall p, m, q, n ::
      BestOffer(providers, req, health, collate, p, m) && EligibleOffer(providers, req, health, q, n) ==>
        Unbeaten(p, m, q, n, collate)
  {
    hide SortBy, CandidatesOf, Evaluated, Eligible, FirstEligible, Compares, Precedes, BestOffer, EligibleOffer,
      Unbeaten;
    forall p, m, q, n | BestOffer(providers, req, health, collate, p, m) && EligibleOffer(providers, req, health, q, n)
      ensures Unbeaten(p, m, q, n, collate)
    {
      BestIsUnbeaten(providers, req, health, collate, p, m, q, n);
    }
    SelectionIsEligible(providers, req, health, collate);
    var candidates := CandidatesOf(providers, req, health);
    var ranked := SortBy(candidates, Ranking(collate));
    RankingIsTotal(collate);
    SortBySorted(candidates, Ranking(collate));
    SameElements(ranked, candidates);
    FirstEligibleFound(ranked);
    if FirstEligible(ranked).Some? {
      var i :| FirstAt(ranked, i) && ranked[i].target == FirstEligible(ranked).value;
      FirstIsBest(providers, req, health, collate, ranked, i);
    }
  }

  lemma FirstIsBest(providers: seq<ProviderPolicy>, req: Requirements, health: seq<Health>, collate: Collation,
        ranked: seq<Candidate>, i: nat)
    requires FirstAt(ranked, i) && Sorted(ranked, Ranking(collate)) && TotalPreorder(Ranking(collate))
    requires forall c :: c in ranked <==> c in CandidatesOf(providers, req, health)
    ensures exists p, m :: BestOffer(providers, req, health, collate, p, m) && TargetOf(p, m) == ranked[i].target
  {
    hide CandidatesOf, Evaluated, Eligible, Precedes;
    var c := ranked[i];
    assert c in ranked;
    var p, m := CandidateOffered(providers, req, health, c);
    forall q, n | EligibleOffer(providers, req, health, q, n)
      ensures Precedes(c, Evaluated(q, n, req, health), collate)
    {
      var d := Evaluated(q, n, req, health);
      EligibleListed(providers, req, health, q, n);
      var j :| 0 <= j < |ranked| && ranked[j] == d;
      assert Ranking(collate)(c, d) by {
        if j == i {
          assert Ranking(collate)(c, c) || Ranking(collate)(c, c);
        }
      }
    }
    assert BestOffer(providers, req, health, collate, p, m);
  }

  lemma EvaluatedTarget(p: ProviderPolicy, m: ModelPolicy, req: Requirements, health: seq<Health>)
    ensures Evaluated(p, m, req, health).target == TargetOf(p, m)
  {
  }

  // The order of the lists does not matter.

  predicate SameSettings(p: ProviderPolicy, q: ProviderPolicy) {
    p.(models := []) == q.(models := [])
  }

  /** Every offer of one list is in the other. */
  ghost predicate OffersWithin(one: seq<ProviderPolicy>, other: seq<ProviderPolicy>) {
    forall p, m :: Offers(one, p, m) ==> exists q :: Offers(other, q, m) && SameSettings(p, q)
  }

  lemma HealthIgnoresOrder(one: seq<Health>, other: seq<Health>, t: Target)
    requires ValidHealth(one) && multiset(one) == multiset(other)
    ensures HealthOf(one, t) == HealthOf(other, t)
  {
    hide HealthOf;
    SameElements(one, other);
    if HealthOf(one, t).Some? && HealthOf(other, t).Some? {
      var a, b := HealthOf(one, t).value, HealthOf(other, t).value;
      var i :| 0 <= i < |one| && one[i] == a;
      var j :| 0 <= j < |one| && one[j] == b;
    }
  }

  lemma SameEvaluation(p: ProviderPolicy, q: ProviderPolicy, m: ModelPolicy, req: Requirements, one: seq<Health>,
        other: seq<Health>)
    requires SameSettings(p, q) && ValidHealth(one) && multiset(one) == multiset(other)
    ensures Evaluated(p, m, req, one) == Evaluated(q, m, req, other)
  {
    hide HealthOf, IncludesAll;
    HealthIgnoresOrder(one, other, TargetOf(p, m));
    assert TargetOf(p, m) == TargetOf(q, m);
    SameReasons(p, q, m, req, HealthOf(one, TargetOf(p, m)));
  }

  lemma SameReasons(p: ProviderPolicy, q: ProviderPolicy, m: ModelPolicy, req: Requirements, health: Option<Health>)
    requires SameSettings(p, q)
    ensures ReasonsFor(p, m, req, health) == ReasonsFor(q, m, req, health)
    ensures p.priority == q.priority
  {
    hide IncludesAll;
    assert p.(models := []).enabled == q.(models := []).enabled &&
      p.(models := []).priority == q.(models := []).priority;
    assert p.(models := []).capabilities == q.(models := []).capabilities &&
      p.(models := []).permissions == q.(models := []).permissions;
  }

  /** A best offer on one side outranks every eligible offer of the other. */
  lemma BestAcross(one: seq<ProviderPolicy>, other: seq<ProviderPolicy>, req: Requirements, h1: seq<Health>,
        h2: seq<Health>, collate: Collation,
                   p: ProviderPolicy, m: ModelPolicy, q: ProviderPolicy, n: ModelPolicy)
    requires OffersWithin(other, one) && ValidHealth(h2) && multiset(h2) == multiset(h1)
    requires BestOffer(one, req, h1, collate, p, m) && EligibleOffer(other, req, h2, q, n)
    ensures Precedes(Evaluated(p, m, req, h1), Evaluated(q, n, req, h2), collate)
  {
    hide Evaluated, Eligible, Precedes, SameSettings;
    var twin :| Offers(one, twin, n) && SameSettings(q, twin);
    SameEvaluation(q, twin, n, req, h2, h1);
    EligibleCandidate(other, req, h2, q, n);
    EligibleCandidate(one, req, h1, twin, n);
    assert EligibleOffer(one, req, h1, twin, n);
  }

  lemma MutualPrecedence(a: Candidate, b: Candidate, collate: Collation)
    requires Precedes(a, b, collate) && Precedes(b, a, collate)
    ensures a.target.provider == b.target.provider && Tied(collate, a.target.model, b.target.model)
  {
  }

  /** The comparison ties no two different models that are offered by one provider. */
  ghost predicate TellsApart(providers: seq<ProviderPolicy>, collate: Collation) {
    forall p, m, q, n :: Offers(providers, p, m) && Offers(providers, q, n) ==> ToldApart(collate, p, m, q, n)
  }

  predicate ToldApart(collate: Collation, p: ProviderPolicy, m: ModelPolicy, q: ProviderPolicy, n: ModelPolicy) {
    p.provider == q.provider && Tied(collate, m.id, n.id) ==> m.id == n.id
  }

  lemma ChoiceAgrees(one: seq<ProviderPolicy>, other: seq<ProviderPolicy>, req: Requirements, h1: seq<Health>,
        h2: seq<Health>, collate: Collation)
    requires Compares(collate) && TellsApart(one, collate) && OffersWithin(one, other) && OffersWithin(other, one)
    requires ValidHealth(h1) && ValidHealth(h2) && multiset(h1) == multiset(h2)
    requires SelectBestEligibleTarget(one, req, h1, collate).Ok?
    requires SelectBestEligibleTarget(other, req, h2, collate).Ok?
    ensures var r := SelectBestEligibleTarget(one, req, h1, collate);
      r.value.Some? ==> SelectBestEligibleTarget(other, req, h2, collate) == r
  {
    hide SelectBestEligibleTarget, BestOffer, Eligible, Compares, TellsApart, ValidHealth, OffersWithin, EligibleOffer;
    var r, s := SelectBestEligibleTarget(one, req, h1, collate), SelectBestEligibleTarget(other, req, h2, collate);
    if r.value.Some? {
      SelectionIsBest(one, req, h1, collate);
      SelectionIsBest(other, req, h2, collate);
      var p, m :| BestOffer(one, req, h1, collate, p, m) && TargetOf(p, m) == r.value.value;
      BestIsEligible(one, req, h1, collate, p, m);
      EligibleAcross(one, other, req, h1, h2, p, m);
      var q, n :| BestOffer(other, req, h2, collate, q, n) && TargetOf(q, n) == s.value.value;
      BestsAgree(one, other, req, h1, h2, collate, p, m, q, n);
    }
  }

  lemma BestIsEligible(providers: seq<ProviderPolicy>, req: Requirements, health: seq<Health>, collate: Collation,
        p: ProviderPolicy, m: ModelPolicy)
    requires BestOffer(providers, req, health, collate, p, m)
    ensures EligibleOffer(providers, req, health, p, m) && Offers(providers, p, m)
  {
    hide Evaluated, Eligible, Precedes;
  }

  lemma BestsAgree(one: seq<ProviderPolicy>, other: seq<ProviderPolicy>, req: Requirements, h1: seq<Health>,
        h2: seq<Health>, collate: Collation, p: ProviderPolicy, m: ModelPolicy, q: ProviderPolicy, n: ModelPolicy)
    requires TellsApart(one, collate) && OffersWithin(one, other) && OffersWithin(other, one)
    requires ValidHealth(h1) && ValidHealth(h2) && multiset(h1) == multiset(h2)
    requires BestOffer(one, req, h1, collate, p, m) && BestOffer(other, req, h2, collate, q, n)
    ensures TargetOf(p, m) == TargetOf(q, n)
  {
    hide BestOffer, EligibleOffer, Evaluated, Precedes, Tied, ValidHealth, Offers;
    BestIsEligible(one, req, h1, collate, p, m);
    BestIsEligible(other, req, h2, collate, q, n);
    BestAcross(one, other, req, h1, h2, collate, p, m, q, n);
    BestAcross(other, one, req, h2, h1, collate, q, n, p, m);
    MutualPrecedence(Evaluated(p, m, req, h1), Evaluated(q, n, req, h2), collate);
    EvaluatedTarget(p, m, req, h1);
    EvaluatedTarget(q, n, req, h2);
    var twin :| Offers(one, twin, n) && SameSettings(q, twin);
    SameProvider(q, twin);
    assert ToldApart(collate, p, m, twin, n);
  }

  lemma TellsApartAcross(one: seq<ProviderPolicy>, other: seq<ProviderPolicy>, collate: Collation)
    requires TellsApart(one, collate) && OffersWithin(other, one)
    ensures TellsApart(other, collate)
  {
    hide Tied, Offers;
    forall p, m, q, n | Offers(other, p, m) && Offers(other, q, n)
      ensures ToldApart(collate, p, m, q, n)
    {
      var a :| Offers(one, a, m) && SameSettings(p, a);
      var b :| Offers(one, b, n) && SameSettings(q, b);
      SameProvider(p, a);
      SameProvider(q, b);
      assert ToldApart(collate, a, m, b, n);
    }
  }

  lemma SameProvider(p: ProviderPolicy, q: ProviderPolicy)
    requires SameSettings(p, q)
    ensures p.provider == q.provider
  {
    assert p.(models := []).provider == q.(models := []).provider;
  }

  /** Any order of providers, models and health entries gives the same answer. */
  lemma SelectionIgnoresOrder(one: seq<ProviderPolicy>, other: seq<ProviderPolicy>, req: Requirements, h1: seq<Health>,
        h2: seq<Health>, collate: Collation)
    requires Compares(collate) && TellsApart(one, collate) && OffersWithin(one, other) && OffersWithin(other, one)
    requires ValidHealth(h1) && ValidHealth(h2) && multiset(h1) == multiset(h2)
    ensures SelectBestEligibleTarget(one, req, h1, collate) == SelectBestEligibleTarget(other, req, h2, collate)
  {
    hide SortBy, CandidatesOf, FirstEligible, Compares, OffersWithin, Ranking, ValidHealth, TellsApart;
    if SelectBestEligibleTarget(one, req, h1, collate).Ok? {
      TellsApartAcross(one, other, collate);
      ChoiceAgrees(one, other, req, h1, h2, collate);
      ChoiceAgrees(other, one, req, h2, h1, collate);
    }
  }

  lemma EligibleAcross(one: seq<ProviderPolicy>, other: seq<ProviderPolicy>, req: Requirements, h1: seq<Health>,
        h2: seq<Health>, p: ProviderPolicy, m: ModelPolicy)
    requires OffersWithin(one, other) && ValidHealth(h1) && multiset(h1) == multiset(h2)
    requires EligibleOffer(one, req, h1, p, m)
    ensures exists q, n :: EligibleOffer(other, req, h2, q, n)
  {
    hide Evaluated, Eligible, SameSettings;
    var twin :| Offers(other, twin, m) && SameSettings(p, twin);
    SameEvaluation(p, twin, m, req, h1, h2);
    EligibleCandidate(one, req, h1, p, m);
    EligibleCandidate(other, req, h2, twin, m);
    assert EligibleOffer(other, req, h2, twin, m);
  }

  // Where the comparison ties two models, their order decides.

  function OneProvider(models: seq<ModelPolicy>): seq<ProviderPolicy> {
    [ProviderPolicy(Claude, true, 0, [], [], models)]
  }

  function Offer(id: ModelId): ModelPolicy {
    ModelPolicy(id, true, 0)
  }

  function Healthy(ids: seq<ModelId>): seq<Health> {
    seq(|ids|, i requires 0 <= i < |ids| => Health(Target(Claude, ids[i]), true, []))
  }

  lemma TwoCandidates(p: ProviderPolicy, m: ModelPolicy, n: ModelPolicy, req: Requirements, health: seq<Health>)
    requires p.models == [m, n]
    ensures CandidatesOf([p], req, health) == [Evaluated(p, m, req, health), Evaluated(p, n, req, health)]
  {
    hide Evaluated;
    assert [m, n][1..] == [n] && [n][1..] == [];
    assert OfModels(p, [n], req, health) == [Evaluated(p, n, req, health)];
    assert OfModels(p, [m, n], req, health) == [Evaluated(p, m, req, health), Evaluated(p, n, req, health)];
    assert [p][1..] == [];
  }

  lemma FirstOfTwo(first: Candidate, second: Candidate, collate: Collation)
    requires Precedes(first, second, collate) && first.reasons == []
    ensures FirstEligible(SortBy([first, second], Ranking(collate))) == Some(first.target)
  {
    hide Precedes;
    assert [first, second][1..] == [second] && [second][1..] == [];
    assert SortBy([second], Ranking(collate)) == [second];
    assert SortBy([first, second], Ranking(collate)) == [first, second];
  }

  lemma TiedSelection(a: ModelId, b: ModelId, c: ModelId, d: ModelId, collate: Collation)
    requires a != b && {c, d} == {a, b} && Tied(collate, a, b)
    ensures SelectBestEligibleTarget(OneProvider([Offer(c), Offer(d)]), Requirements([], []), Healthy([a, b]),
      collate) == Ok(Some(Target(Claude, c)))
  {
    hide Evaluated, Healthy, SortBy, CandidatesOf, FirstEligible;
    var req, health := Requirements([], []), Healthy([a, b]);
    var p := OneProvider([Offer(c), Offer(d)])[0];
    assert c in {c, d} && d in {c, d} && c != d;
    TiedEvaluated(a, b, c, p);
    TiedEvaluated(a, b, d, p);
    TwoCandidates(p, Offer(c), Offer(d), req, health);
    FirstOfTwo(Evaluated(p, Offer(c), req, health), Evaluated(p, Offer(d), req, health), collate);
    HealthyIsValid(a, b);
  }

  lemma HealthyIsValid(a: ModelId, b: ModelId)
    requires a != b
    ensures ValidHealth(Healthy([a, b]))
  {
  }

  lemma TiedEvaluated(a: ModelId, b: ModelId, c: ModelId, p: ProviderPolicy)
    requires a != b && c in {a, b} && p.provider == Claude && p.enabled && p.priority == 0
    ensures Evaluated(p, Offer(c), Requirements([], []), Healthy([a, b])) == Candidate(Target(Claude, c), [], 0, 0)
  {
    var health := Healthy([a, b]);
    assert health[..1] == [health[0]];
    assert HealthOf(health, Target(Claude, c)).Some?;
    assert HealthOf(health, Target(Claude, c)).value.healthy;
  }

  /** So a consistent comparison makes the choice independent of the order of lists exactly when it ties no two
      different ids. */
  lemma OrderIgnoredExactly(collate: Collation)
    requires Compares(collate)
    ensures IgnoresOrder(collate) <==> forall a, b :: Tied(collate, a, b) ==> a == b
  {
    hide Tied, SelectBestEligibleTarget, Compares, ValidHealth, OffersWithin;
    if forall a, b :: Tied(collate, a, b) ==> a == b {
      forall one, other, req, h1, h2 | SameLists(one, other, h1, h2)
        ensures SelectBestEligibleTarget(one, req, h1, collate) == SelectBestEligibleTarget(other, req, h2, collate)
      {
        SelectionIgnoresOrder(one, other, req, h1, h2, collate);
      }
    }
    if a, b :| Tied(collate, a, b) && a != b {
      TiedSelection(a, b, a, b, collate);
      TiedSelection(a, b, b, a, collate);
      TiedInputs(a, b);
      if IgnoresOrder(collate) {
        SameChoice(collate, OneProvider([Offer(a), Offer(b)]), OneProvider([Offer(b), Offer(a)]), Requirements([], []),
          Healthy([a, b]));
      }
    }
  }

  /** The two sides offer the same models and report the same health, in whatever order. */
  ghost predicate SameLists(one: seq<ProviderPolicy>, other: seq<ProviderPolicy>, h1: seq<Health>, h2: seq<Health>) {
    && OffersWithin(one, other) && OffersWithin(other, one)
    && ValidHealth(h1) && ValidHealth(h2) && multiset(h1) == multiset(h2)
  }

  ghost predicate IgnoresOrder(collate: Collation) {
    forall one, other, req, h1, h2 :: SameLists(one, other, h1, h2) ==>
      SelectBestEligibleTarget(one, req, h1, collate) == SelectBestEligibleTarget(other, req, h2, collate)
  }

  lemma SameChoice(collate: Collation, one: seq<ProviderPolicy>, other: seq<ProviderPolicy>, req: Requirements,
        health: seq<Health>)
    requires IgnoresOrder(collate) && SameLists(one, other, health, health)
    ensures SelectBestEligibleTarget(one, req, health, collate) == SelectBestEligibleTarget(other, req, health, collate)
  {
  }

  lemma TiedInputs(a: ModelId, b: ModelId)
    requires a != b
    ensures var one, other := OneProvider([Offer(a), Offer(b)]), OneProvider([Offer(b), Offer(a)]);
      OffersWithin(one, other) && OffersWithin(other, one) && ValidHealth(Healthy([a, b]))
  {
    var one, other := OneProvider([Offer(a), Offer(b)]), OneProvider([Offer(b), Offer(a)]);
    forall p, m | Offers(one, p, m)
      ensures Offers(other, other[0], m) && SameSettings(p, other[0])
    {
    }
    forall p, m | Offers(other, p, m)
      ensures Offers(one, one[0], m) && SameSettings(p, one[0])
    {
    }
  }

  // The choice passes the dispatch check.

  function FindProvider(providers: seq<ProviderPolicy>, provider: Provider): (r: Option<ProviderPolicy>)
    ensures r.Some? ==> r.value in providers && r.value.provider == provider
    ensures r.None? ==> forall p :: p in providers ==> p.provider != provider
  {
    if providers == [] then None
    else if providers[0].provider == provider then Some(providers[0])
    else FindProvider(providers[1..], provider)
  }

  predicate AllowsTarget(providers: seq<ProviderPolicy>, target: Target, req: Requirements) {
    var p := FindProvider(providers, target.provider);
    && p.Some? && p.value.enabled
    && IncludesAll(p.value.capabilities, req.capabilities) && IncludesAll(p.value.permissions, req.permissions)
    && exists m :: m in p.value.models && m.id == target.model && m.enabled
  }

  /** The dispatch check lets through exactly an enabled model of an enabled provider that grants what is required. */
  lemma AllowedExactly(providers: seq<ProviderPolicy>, target: Target, req: Requirements)
    requires ValidPolicy(providers)
    ensures AllowsTarget(providers, target, req) <==>
      exists p, m :: Offers(providers, p, m) && TargetOf(p, m) == target && MayRun(p, m, req)
  {
    hide FindProvider;
    var found := FindProvider(providers, target.provider);
    if AllowsTarget(providers, target, req) {
      var m :| m in found.value.models && m.id == target.model && m.enabled;
      assert Offers(providers, found.value, m) && MayRun(found.value, m, req);
    }
    if p, m :| Offers(providers, p, m) && TargetOf(p, m) == target && MayRun(p, m, req) {
      var i :| 0 <= i < |providers| && providers[i] == p;
      var j :| 0 <= j < |providers| && providers[j] == found.value;
      assert found.value == p;
    }
  }

  predicate MayRun(p: ProviderPolicy, m: ModelPolicy, req: Requirements) {
    && p.enabled && m.enabled
    && (forall c :: c in req.capabilities ==> c in p.capabilities)
    && (forall c :: c in req.permissions ==> c in p.permissions)
  }

  /** The choice always passes it. */
  lemma SelectedIsAllowed(providers: seq<ProviderPolicy>, req: Requirements, health: seq<Health>, collate: Collation)
    requires ValidPolicy(providers)
    ensures var r := SelectBestEligibleTarget(providers, req, health, collate);
      r.Ok? && r.value.Some? ==> AllowsTarget(providers, r.value.value, req)
  {
    hide SelectBestEligibleTarget, HealthOf, FindProvider, IncludesAll;
    var r := SelectBestEligibleTarget(providers, req, health, collate);
    if r.Ok? && r.value.Some? {
      SelectionIsEligible(providers, req, health, collate);
      var p, m :| EligibleOffer(providers, req, health, p, m) && TargetOf(p, m) == r.value.value;
      var found := FindProvider(providers, p.provider);
      var i :| 0 <= i < |providers| && providers[i] == p;
      var j :| 0 <= j < |providers| && providers[j] == found.value;
      assert m in found.value.models && m.id == r.value.value.model && m.enabled;
    }
  }

}
