/** Run budgets: what each profile has used of each metric, and what that allows. */
module CampaignBudget {
  import opened Wrappers

  type ProfileId = string

  datatype Metric = DurationSeconds | Calls | CurrencyEur | CliQuotaPercent

  datatype BudgetMode = Admission | HardStop | Observe

  datatype BudgetLimit = BudgetLimit(profileId: ProfileId, metric: Metric, maximum: real)

  datatype Action = Continue | BlockNew | Stop | Warn

  /** A worker's measurement; a number that is not finite is refused like a negative one. */
  datatype Measure = Finite(amount: real) | NotFinite

  datatype Usage = Usage(unknown: bool, durationSeconds: Option<Measure>, calls: Option<Measure>,
        euros: Option<Measure>, quotaPercent: Option<Measure>)

  datatype Ledger = Ledger(totals: map<(ProfileId, Metric), real>, unknownProfiles: set<ProfileId>)

  function Total(l: Ledger, p: ProfileId, m: Metric): real {
    if (p, m) in l.totals then l.totals[(p, m)] else 0.0
  }

  predicate ExceedsLimit(l: Ledger, limit: BudgetLimit) {
    Total(l, limit.profileId, limit.metric) >= limit.maximum
  }

  predicate Exceeded(limits: seq<BudgetLimit>, l: Ledger, p: ProfileId) {
    exists limit :: limit in limits && limit.profileId == p && ExceedsLimit(l, limit)
  }

  function ActionFor(mode: BudgetMode, exceeded: bool): Action {
    if !exceeded then Continue
    else match mode
      case Observe => Warn
      case Admission => BlockNew
      case HardStop => Stop
  }

  function Decision(mode: BudgetMode, limits: seq<BudgetLimit>, l: Ledger, p: ProfileId): Action {
    ActionFor(mode, Exceeded(limits, l, p))
  }

  predicate Refuses(action: Action) {
    action.BlockNew? || action.Stop?
  }

  predicate ValidMeasure(value: Option<Measure>) {
    value.Some? ==> value.value.Finite? && value.value.amount >= 0.0
  }

  function Amount(value: Option<Measure>): real {
    if value.Some? && value.value.Finite? && value.value.amount >= 0.0 then value.value.amount else 0.0
  }

  function MeasureOf(usage: Usage, m: Metric): Option<Measure> {
    match m
    case DurationSeconds => usage.durationSeconds
    case Calls => usage.calls
    case CurrencyEur => usage.euros
    case CliQuotaPercent => usage.quotaPercent
  }

  function Added(l: Ledger, p: ProfileId, m: Metric, value: Option<Measure>): Ledger {
    if value.None? || !ValidMeasure(value) then l
    else l.(totals := l.totals[(p, m) := Total(l, p, m) + value.value.amount])
  }

  /** Metrics are added in a fixed order and the first invalid one throws, so what stood before it has been added. */
  function RecordedMetrics(l: Ledger, p: ProfileId, usage: Usage, metrics: seq<Metric>): (Ledger, bool)
    decreases |metrics|
  {
    if metrics == [] then (l, true)
    else if !ValidMeasure(MeasureOf(usage, metrics[0])) then (l, false)
    else RecordedMetrics(Added(l, p, metrics[0], MeasureOf(usage, metrics[0])), p, usage, metrics[1..])
  }

  const METRIC_ORDER: seq<Metric> := [DurationSeconds, Calls, CurrencyEur, CliQuotaPercent]

  function Recorded(l: Ledger, p: ProfileId, usage: Usage): (Ledger, bool) {
    RecordedMetrics(if usage.unknown then l.(unknownProfiles := l.unknownProfiles + {p}) else l, p, usage, METRIC_ORDER)
  }

  /** Where the metric stands in that order. */
  function Position(m: Metric): (i: nat)
    ensures i < |METRIC_ORDER| && METRIC_ORDER[i] == m
  {
    match m
    case DurationSeconds => 0
    case Calls => 1
    case CurrencyEur => 2
    case CliQuotaPercent => 3
  }

  /** The measurements from the given place up to the metric's own are valid, so nothing throws before it is added. */
  predicate ReachesMetric(usage: Usage, start: nat, m: Metric) {
    start <= Position(m) && forall i :: start <= i <= Position(m) ==> ValidMeasure(MeasureOf(usage, METRIC_ORDER[i]))
  }

  /** What one record adds to the total of a metric. */
  function Contribution(usage: Usage, m: Metric): real {
    if ReachesMetric(usage, 0, m) then Amount(MeasureOf(usage, m)) else 0.0
  }

  lemma AddedTotal(l: Ledger, p: ProfileId, n: Metric, value: Option<Measure>, q: ProfileId, m: Metric)
    ensures Total(Added(l, p, n, value), q, m) == Total(l, q, m) + if q == p && m == n then Amount(value) else 0.0
  {
  }

  lemma ReachesNext(usage: Usage, start: nat, m: Metric)
    requires start < |METRIC_ORDER|
    ensures ReachesMetric(usage, start, m) <==>
      ValidMeasure(MeasureOf(usage, METRIC_ORDER[start])) &&
        (m == METRIC_ORDER[start] || ReachesMetric(usage, start + 1, m))
  {
    hide ValidMeasure, MeasureOf;
    assert m == METRIC_ORDER[Position(m)];
    assert Position(METRIC_ORDER[start]) == start;
  }

  lemma {:induction false} RecordedFrom(l: Ledger, p: ProfileId, usage: Usage, start: nat, q: ProfileId, m: Metric)
    requires start <= |METRIC_ORDER|
    ensures Total(RecordedMetrics(l, p, usage, METRIC_ORDER[start..]).0, q, m)
      == Total(l, q, m) + if q == p && ReachesMetric(usage, start, m) then Amount(MeasureOf(usage, m)) else 0.0
    decreases |METRIC_ORDER| - start
  {
    if start < |METRIC_ORDER| {
      hide Total, Added, ReachesMetric, ValidMeasure, MeasureOf, Amount;
      var n := METRIC_ORDER[start];
      assert METRIC_ORDER[start..][1..] == METRIC_ORDER[start + 1..];
      ReachesNext(usage, start, m);
      if ValidMeasure(MeasureOf(usage, n)) {
        RecordedFrom(Added(l, p, n, MeasureOf(usage, n)), p, usage, start + 1, q, m);
        AddedTotal(l, p, n, MeasureOf(usage, n), q, m);
        PastMetric(usage, start);
      }
    }
  }

  lemma PastMetric(usage: Usage, start: nat)
    requires start < |METRIC_ORDER|
    ensures !ReachesMetric(usage, start + 1, METRIC_ORDER[start])
  {
    assert Position(METRIC_ORDER[start]) == start;
  }

  predicate Unique(metrics: seq<Metric>) {
    forall i, j :: 0 <= i < j < |metrics| ==> metrics[i] != metrics[j]
  }

  lemma {:induction false} RecordedMetricsTotals(l: Ledger, p: ProfileId, usage: Usage, metrics: seq<Metric>,
        q: ProfileId, m: Metric)
    requires Unique(metrics)
    ensures var (after, ok) := RecordedMetrics(l, p, usage, metrics);
      && Total(l, q, m) <= Total(after, q, m) <= Total(l, q, m) + (if q == p then Amount(MeasureOf(usage, m)) else 0.0)
      && (ok && m in metrics && q == p ==> Total(after, q, m) == Total(l, q, m) + Amount(MeasureOf(usage, m)))
      && (m !in metrics ==> Total(after, q, m) == Total(l, q, m))
      && (ok <==> forall n :: n in metrics ==> ValidMeasure(MeasureOf(usage, n)))
    decreases |metrics|
  {
    if metrics != [] && ValidMeasure(MeasureOf(usage, metrics[0])) {
      RecordedMetricsTotals(Added(l, p, metrics[0], MeasureOf(usage, metrics[0])), p, usage, metrics[1..], q, m);
    }
  }

  /** One record: other profiles are untouched, no total shrinks, and each grows by the measurement if that and all
      before it are valid. */
  lemma RecordedTotals(l: Ledger, p: ProfileId, usage: Usage, q: ProfileId, m: Metric)
    ensures var (after, ok) := Recorded(l, p, usage);
      && Total(l, q, m) <= Total(after, q, m) <= Total(l, q, m) + (if q == p then Amount(MeasureOf(usage, m)) else 0.0)
      && Total(after, q, m) == Total(l, q, m) + (if q == p then Contribution(usage, m) else 0.0)
      && (ok && q == p ==> Total(after, q, m) == Total(l, q, m) + Amount(MeasureOf(usage, m)))
      && (ok <==> forall n :: ValidMeasure(MeasureOf(usage, n)))
  {
    assert METRIC_ORDER[0..] == METRIC_ORDER;
    RecordedFrom(if usage.unknown then l.(unknownProfiles := l.unknownProfiles + {p}) else l, p, usage, 0, q, m);
    RecordedMetricsTotals(if usage.unknown then l.(unknownProfiles := l.unknownProfiles + {p}) else l, p, usage,
      METRIC_ORDER, q, m);
    forall n: Metric
      ensures n in METRIC_ORDER
    {
      assert METRIC_ORDER[Position(n)] == n;
    }
  }

  /** A profile that is refused once is refused for good, whatever is recorded next. */
  lemma RefusedStaysRefused(mode: BudgetMode, limits: seq<BudgetLimit>, l: Ledger, p: ProfileId, usage: Usage,
        q: ProfileId)
    requires Refuses(Decision(mode, limits, l, q))
    ensures Refuses(Decision(mode, limits, Recorded(l, p, usage).0, q))
  {
    var limit :| limit in limits && limit.profileId == q && ExceedsLimit(l, limit);
    RecordedTotals(l, p, usage, q, limit.metric);
    assert ExceedsLimit(Recorded(l, p, usage).0, limit);
  }

  datatype Entry = Entry(profileId: ProfileId, usage: Usage)

  function RecordedAll(l: Ledger, entries: seq<Entry>): Ledger {
    if entries == [] then l
    else Recorded(RecordedAll(l, entries[..|entries| - 1]), entries[|entries| - 1].profileId,
      entries[|entries| - 1].usage).0
  }

  /** So a profile refused after some of the records is refused after any more of them. */
  lemma {:induction false} RefusedForGood(mode: BudgetMode, limits: seq<BudgetLimit>, start: Ledger,
        entries: seq<Entry>, i: nat, j: nat, q: ProfileId)
    requires i <= j <= |entries| && Refuses(Decision(mode, limits, RecordedAll(start, entries[..i]), q))
    ensures Refuses(Decision(mode, limits, RecordedAll(start, entries[..j]), q))
    decreases j
  {
    hide Decision, Recorded;
    if i < j {
      RefusedForGood(mode, limits, start, entries, i, j - 1, q);
      assert entries[..j][..j - 1] == entries[..j - 1];
      RefusedStaysRefused(mode, limits, RecordedAll(start, entries[..j - 1]), entries[j - 1].profileId,
        entries[j - 1].usage, q);
    }
  }

  function SumOf(entries: seq<Entry>, p: ProfileId, m: Metric): real {
    if entries == [] then 0.0
    else
      var last := entries[|entries| - 1];
      SumOf(entries[..|entries| - 1], p, m) + (if last.profileId == p then Contribution(last.usage, m) else 0.0)
  }

  /** Totals are the sums of what was recorded, per profile and metric, whatever threw half way. */
  lemma {:induction false} TotalsAreSums(entries: seq<Entry>, p: ProfileId, m: Metric)
    ensures Total(RecordedAll(Ledger(map[], {}), entries), p, m) == SumOf(entries, p, m)
  {
    hide Recorded, Contribution;
    if entries != [] {
      var before, last := entries[..|entries| - 1], entries[|entries| - 1];
      TotalsAreSums(before, p, m);
      RecordedTotals(RecordedAll(Ledger(map[], {}), before), last.profileId, last.usage, p, m);
    }
  }

  /** The records of a profile have used up one of its limits. */
  ghost predicate Reached(limits: seq<BudgetLimit>, entries: seq<Entry>, p: ProfileId) {
    exists limit :: limit in limits && limit.profileId == p && SumOf(entries, p, limit.metric) >= limit.maximum
  }

  /** What the modes make of that: a hard stop stops, admission refuses newcomers, observation only warns. */
  lemma DecisionOnSums(mode: BudgetMode, limits: seq<BudgetLimit>, entries: seq<Entry>, p: ProfileId)
    ensures var action := Decision(mode, limits, RecordedAll(Ledger(map[], {}), entries), p);
      && (action.Continue? <==> !Reached(limits, entries, p))
      && (action.Warn? <==> mode.Observe? && Reached(limits, entries, p))
      && (action.BlockNew? <==> mode.Admission? && Reached(limits, entries, p))
      && (action.Stop? <==> mode.HardStop? && Reached(limits, entries, p))
  {
    hide SumOf, RecordedAll, Total;
    var l := RecordedAll(Ledger(map[], {}), entries);
    forall limit | limit in limits && limit.profileId == p
      ensures ExceedsLimit(l, limit) <==> SumOf(entries, p, limit.metric) >= limit.maximum
    {
      TotalsAreSums(entries, p, limit.metric);
    }
  }

  /** A profile counts as unmeasured exactly once one of its records was. */
  lemma {:induction false} UnknownIsRecorded(entries: seq<Entry>, p: ProfileId)
    ensures p in RecordedAll(Ledger(map[], {}), entries).unknownProfiles <==>
      exists e :: e in entries && e.profileId == p && e.usage.unknown
  {
    if entries != [] {
      var before, last := entries[..|entries| - 1], entries[|entries| - 1];
      assert entries == before + [last];
      UnknownIsRecorded(before, p);
      var l := RecordedAll(Ledger(map[], {}), before);
      MetricsKeepUnknown(if last.usage.unknown then l.(unknownProfiles := l.unknownProfiles + {last.profileId}) else l,
        last.profileId, last.usage, METRIC_ORDER);
    }
  }

  lemma {:induction false} MetricsKeepUnknown(l: Ledger, p: ProfileId, usage: Usage, metrics: seq<Metric>)
    ensures RecordedMetrics(l, p, usage, metrics).0.unknownProfiles == l.unknownProfiles
    decreases |metrics|
  {
    if metrics != [] && ValidMeasure(MeasureOf(usage, metrics[0])) {
      MetricsKeepUnknown(Added(l, p, metrics[0], MeasureOf(usage, metrics[0])), p, usage, metrics[1..]);
    }
  }

  class CampaignBudget {
    const mode: BudgetMode
    const limits: seq<BudgetLimit>
    var totals: map<(ProfileId, Metric), real>
    var unknownProfiles: set<ProfileId>

    constructor (mode: BudgetMode, limits: seq<BudgetLimit>)
      ensures this.mode == mode && this.limits == limits
      ensures View() == Ledger(map[], {})
    {
      this.mode, this.limits := mode, limits;
      totals, unknownProfiles := map[], {};
    }

    function View(): Ledger
      reads this
    {
      Ledger(totals, unknownProfiles)
    }

    /** What the totals allow now, by the mode. */
    method Before(profileId: ProfileId) returns (action: Action)
      ensures action == Decision(mode, limits, View(), profileId)
      ensures action.Continue? <==> !Exceeded(limits, View(), profileId)
      ensures action.Warn? <==> mode.Observe? && Exceeded(limits, View(), profileId)
      ensures action.BlockNew? <==> mode.Admission? && Exceeded(limits, View(), profileId)
      ensures action.Stop? <==> mode.HardStop? && Exceeded(limits, View(), profileId)
    {
      action := Decide(profileId);
    }

    method Decide(profileId: ProfileId) returns (action: Action)
      ensures action == Decision(mode, limits, View(), profileId)
    {
      var exceeded := false;
      var i := 0;
      while i < |limits|
        invariant 0 <= i <= |limits|
        invariant exceeded <==>
          exists k :: 0 <= k < i && limits[k].profileId == profileId && ExceedsLimit(View(), limits[k])
      {
        if limits[i].profileId == profileId {
          var key := (profileId, limits[i].metric);
          var used := if key in totals then totals[key] else 0.0;
          if used >= limits[i].maximum {
            exceeded := true;
          }
        }
        i := i + 1;
      }
      action := ActionFor(mode, exceeded);
    }

    /** Returns `Err` where the original throws on an invalid measurement. */
    method Record(profileId: ProfileId, usage: Usage) returns (r: Result<Action, ()>)
      modifies this
      ensures View() == Recorded(old(View()), profileId, usage).0
      ensures r == if Recorded(old(View()), profileId, usage).1 then Ok(Decision(mode, limits, View(), profileId))
        else Err(())
      ensures r.Ok? <==> forall m :: ValidMeasure(MeasureOf(usage, m))
      ensures forall q, m ::
        Total(View(), q, m) == old(Total(View(), q, m)) + if q == profileId then Contribution(usage, m) else 0.0
      ensures r.Ok? ==>
        && (r.value.Continue? <==> !Exceeded(limits, View(), profileId))
        && (r.value.Warn? <==> mode.Observe? && Exceeded(limits, View(), profileId))
        && (r.value.BlockNew? <==> mode.Admission? && Exceeded(limits, View(), profileId))
        && (r.value.Stop? <==> mode.HardStop? && Exceeded(limits, View(), profileId))
    {
      forall q, m
        ensures var (after, ok) := Recorded(View(), profileId, usage);
          && Total(after, q, m) == Total(View(), q, m) + (if q == profileId then Contribution(usage, m) else 0.0)
          && (ok <==> forall n :: ValidMeasure(MeasureOf(usage, n)))
      {
        RecordedTotals(View(), profileId, usage, q, m);
      }
      if usage.unknown {
        unknownProfiles := unknownProfiles + {profileId};
      }
      assert METRIC_ORDER[1..] == [Calls, CurrencyEur, CliQuotaPercent];
      assert METRIC_ORDER[1..][1..] == [CurrencyEur, CliQuotaPercent];
      assert METRIC_ORDER[1..][1..][1..] == [CliQuotaPercent];
      var ok := Add(profileId, DurationSeconds, usage.durationSeconds);
      if !ok {
        return Err(());
      }
      ghost var afterDuration := View();
      ok := Add(profileId, Calls, usage.calls);
      assert Recorded(old(View()), profileId, usage) ==
        RecordedMetrics(afterDuration, profileId, usage, METRIC_ORDER[1..]);
      if !ok {
        return Err(());
      }
      ghost var afterCalls := View();
      ok := Add(profileId, CurrencyEur, usage.euros);
      assert Recorded(old(View()), profileId, usage) ==
        RecordedMetrics(afterCalls, profileId, usage, METRIC_ORDER[1..][1..]);
      if !ok {
        return Err(());
      }
      ghost var afterEuros := View();
      ok := Add(profileId, CliQuotaPercent, usage.quotaPercent);
      assert Recorded(old(View()), profileId, usage) ==
        RecordedMetrics(afterEuros, profileId, usage, METRIC_ORDER[1..][1..][1..]);
      if !ok {
        return Err(());
      }
      var action := Decide(profileId);
      return Ok(action);
    }

    method Add(profileId: ProfileId, metric: Metric, value: Option<Measure>) returns (ok: bool)
      modifies this
      ensures ok <==> ValidMeasure(value)
      ensures View() == Added(old(View()), profileId, metric, value)
    {
      if value.None? {
        return true;
      }
      if value.value.NotFinite? || value.value.amount < 0.0 {
        return false;
      }
      var key := (profileId, metric);
      totals := totals[key := (if key in totals then totals[key] else 0.0) + value.value.amount];
      return true;
    }
  }

}
