/** A run as the chain of its batches, and what the budget and the workers decide over the whole of it. */
module RunHistory {
  import opened Wrappers
  import opened CampaignPlan
  import opened CampaignEvents
  import opened EventWriter
  import opened CampaignBudget
  import opened TaskExecution
  import opened BatchBudget
  import opened RunState
  import opened BatchTrace

  /** The later journal continues the earlier one without a start or a success. */
  ghost predicate QuietSince(before: seq<CampaignEvent>, after: seq<CampaignEvent>) {
    && before <= after
    && forall i :: |before| <= i < |after| ==> !after[i].kind.TaskStarted? && !after[i].kind.TaskSucceeded?
  }

  /** The later journal adds tasks reported blocked, and nothing else. */
  ghost predicate BlocksSince(before: seq<CampaignEvent>, after: seq<CampaignEvent>) {
    before <= after && forall i :: |before| <= i < |after| ==> after[i].kind == TaskBlocked
  }

  /** Between two batches nothing runs: budget and hard stop stay as they are, and the journal is quiet. */
  ghost predicate Carries(before: World, after: World) {
    && after.ledger == before.ledger && after.log == before.log && after.hardStop == before.hardStop
    && QuietSince(before.journal.events, after.journal.events)
  }

  /** The world once the first `k` batches have run. */
  function WorldAfter(start: World, traces: seq<Trace>, k: nat): World
    requires k <= |traces|
  {
    if k > 0 && traces[k - 1].worlds != [] then Last(traces[k - 1]) else start
  }

  ghost predicate Continues(ctx: Context, start: World, traces: seq<Trace>, k: int) {
    && 0 <= k < |traces|
    && Unfolds(ctx, traces[k])
    && Carries(WorldAfter(start, traces, k), First(traces[k]))
  }

  /** The run so far: it began with `start`, went through these batches and has come to `now`. */
  ghost predicate History(ctx: Context, start: World, traces: seq<Trace>, now: World) {
    && (forall k :: 0 <= k < |traces| ==> Continues(ctx, start, traces, k))
    && Carries(WorldAfter(start, traces, |traces|), now)
  }

  lemma CarriesOn(a: World, b: World, c: World)
    requires Carries(a, b) && Carries(b, c)
    ensures Carries(a, c)
  {
  }

  lemma HistoryGoesOn(ctx: Context, start: World, traces: seq<Trace>, now: World, later: World)
    requires History(ctx, start, traces, now) && Carries(now, later)
    ensures History(ctx, start, traces, later)
  {
    hide Carries, Continues;
    CarriesOn(WorldAfter(start, traces, |traces|), now, later);
  }

  lemma HistoryOfBatch(ctx: Context, start: World, traces: seq<Trace>, now: World, tr: Trace)
    requires History(ctx, start, traces, now) && Unfolds(ctx, tr) && Carries(now, First(tr))
    ensures History(ctx, start, traces + [tr], Last(tr))
  {
    hide Unfolds;
    TraceLength(ctx, tr);
    var longer := traces + [tr];
    HistoryGoesOn(ctx, start, traces, now, First(tr));
    forall k | 0 <= k < |longer|
      ensures Continues(ctx, start, longer, k)
    {
      if k < |traces| {
        assert Continues(ctx, start, traces, k);
        assert WorldAfter(start, longer, k) == WorldAfter(start, traces, k);
      } else {
        assert WorldAfter(start, longer, k) == WorldAfter(start, traces, k);
      }
    }
  }

  lemma QuietSets(before: seq<CampaignEvent>, after: seq<CampaignEvent>)
    requires QuietSince(before, after)
    ensures StartedIn(after) == StartedIn(before) && SucceededIn(after) == SucceededIn(before)
  {
    forall e | e in after
      ensures e in before || (!e.kind.TaskStarted? && !e.kind.TaskSucceeded?)
    {
      var i :| 0 <= i < |after| && after[i] == e;
      if i < |before| {
        assert before[i] == e;
      }
    }
  }

  // Successes.

  ghost predicate EarnedIn(ctx: Context, traces: seq<Trace>, id: Id) {
    exists k, c :: 0 <= k < |traces| && Earned(ctx, traces[k], id, c)
  }

  /** Over a whole run, a task has succeeded in the journal exactly if in one of the batches its worker came back fit
      for a commit and git made it. */
  lemma {:induction false} SuccessesAreEarned(ctx: Context, start: World, traces: seq<Trace>, now: World, id: Id)
    requires History(ctx, start, traces, now) && SucceededIn(start.journal.events) == {}
    ensures id in SucceededIn(now.journal.events) <==> EarnedIn(ctx, traces, id)
    decreases |traces|
  {
    hide Unfolds, SucceededIn, StartedIn, Earned, QuietSince;
    QuietSets(WorldAfter(start, traces, |traces|).journal.events, now.journal.events);
    if traces != [] {
      var n := |traces| - 1;
      var rest, tr := traces[..n], traces[n];
      assert Continues(ctx, start, traces, n);
      TraceLength(ctx, tr);
      HistoryPrefix(ctx, start, traces, n);
      SuccessesAreEarned(ctx, start, rest, First(tr), id);
      SuccessIsEarned(ctx, tr, id);
      if k, c :| 0 <= k < |traces| && Earned(ctx, traces[k], id, c) {
        assert k < n ==> rest[k] == traces[k];
      }
      if k, c :| 0 <= k < |rest| && Earned(ctx, rest[k], id, c) {
        assert traces[k] == rest[k];
      }
    }
  }

  /** Every batch looks back on the run before it. */
  lemma HistoryPrefix(ctx: Context, start: World, traces: seq<Trace>, n: nat)
    requires n < |traces| && forall k :: 0 <= k < |traces| ==> Continues(ctx, start, traces, k)
    ensures traces[n].worlds != [] && History(ctx, start, traces[..n], First(traces[n]))
  {
    hide Unfolds, Carries;
    assert Continues(ctx, start, traces, n);
    TraceLength(ctx, traces[n]);
    forall k | 0 <= k < n
      ensures Continues(ctx, start, traces[..n], k)
    {
      assert Continues(ctx, start, traces, k);
      assert WorldAfter(start, traces[..n], k) == WorldAfter(start, traces, k);
    }
    assert WorldAfter(start, traces[..n], n) == WorldAfter(start, traces, n);
  }

  // The hard stop over the run.

  ghost predicate RaisedIn(ctx: Context, traces: seq<Trace>) {
    exists k :: 0 <= k < |traces| && RaisedBy(ctx, traces[k], |traces[k].moves|)
  }

  /** The hard stop is up exactly if in hard-stop mode some record has used up a limit of its profile. */
  lemma {:induction false} HardStopOfRun(ctx: Context, start: World, traces: seq<Trace>, now: World)
    requires History(ctx, start, traces, now) && !start.hardStop
    ensures now.hardStop <==> RaisedIn(ctx, traces)
    decreases |traces|
  {
    hide Unfolds, RaisedBy, QuietSince;
    if traces != [] {
      var n := |traces| - 1;
      var rest, tr := traces[..n], traces[n];
      assert Continues(ctx, start, traces, n);
      TraceLength(ctx, tr);
      HistoryPrefix(ctx, start, traces, n);
      HardStopOfRun(ctx, start, rest, First(tr));
      HardStopIsRaised(ctx, tr, |tr.moves|);
      if k :| 0 <= k < |traces| && RaisedBy(ctx, traces[k], |traces[k].moves|) {
        assert k < n ==> rest[k] == traces[k];
      }
      if k :| 0 <= k < |rest| && RaisedBy(ctx, rest[k], |rest[k].moves|) {
        assert traces[k] == rest[k];
      }
    }
  }

  /** From the moment the hard stop is up, whatever follows in the batch and in the whole run, only tasks that had been
      let in by then can still start. */
  lemma {:induction false} StopsTheRun(ctx: Context, start: World, traces: seq<Trace>, now: World, k: nat, i: nat,
        id: Id)
    requires History(ctx, start, traces, now) && k < |traces| && i <= |traces[k].moves|
    requires |traces[k].worlds| == |traces[k].moves| + 1 && traces[k].worlds[i].hardStop
    ensures now.hardStop
    ensures id in StartedIn(now.journal.events) ==>
      id in StartedIn(traces[k].worlds[i].journal.events) || LetIn(traces[k].worlds[i], id)
    decreases |traces|
  {
    hide Unfolds, StartedIn, SucceededIn, LetIn, QuietSince;
    var n := |traces| - 1;
    var tr := traces[n];
    assert Continues(ctx, start, traces, n);
    TraceLength(ctx, tr);
    QuietSets(Last(tr).journal.events, now.journal.events);
    if k == n {
      StartsAfterStop(ctx, tr, i, |tr.moves|, id);
      StopStays(ctx, tr, i, |tr.moves|);
    } else {
      HistoryPrefix(ctx, start, traces, n);
      assert traces[..n][k] == traces[k];
      StopsTheRun(ctx, start, traces[..n], First(tr), k, i, id);
      StartsAfterStop(ctx, tr, 0, |tr.moves|, id);
      StopStays(ctx, tr, 0, |tr.moves|);
      NobodyLetInYet(ctx, tr, id);
    }
  }

  lemma NobodyLetInYet(ctx: Context, tr: Trace, id: Id)
    requires Unfolds(ctx, tr)
    ensures !LetIn(First(tr), id)
  {
    FreshKeys(tr.batch);
  }

  lemma {:induction false} StopStays(ctx: Context, tr: Trace, i: nat, n: nat)
    requires Unfolds(ctx, tr) && i <= n <= |tr.moves| && tr.worlds[i].hardStop
    ensures tr.worlds[n].hardStop
    decreases n
  {
    hide TaskStep, RecordedAll, Ids, Stops;
    if i < n {
      StopStays(ctx, tr, i, n - 1);
      LedgerAlong(ctx, tr, n - 1);
      assert StepsAt(ctx, tr, n - 1);
      HardStopStep(ctx, tr.worlds[n - 1], tr.moves[n - 1].task, tr.moves[n - 1].reply);
    }
  }

  /** In the other modes it never is, and under observation nobody is refused for the budget. */
  lemma OtherModesRun(ctx: Context, start: World, traces: seq<Trace>, now: World, k: nat, n: nat, id: Id)
    requires History(ctx, start, traces, now) && !start.hardStop && !ctx.mode.HardStop?
    requires k < |traces| && n <= |traces[k].moves|
    ensures !now.hardStop
    ensures ctx.mode.Observe? ==> !Stores(ctx, traces[k], n, TaskBudgetStopped, id)
  {
    hide Unfolds, Stores, Carries;
    assert Continues(ctx, start, traces, k);
    NeverRaised(ctx, start, traces, now);
    HistoryPrefix(ctx, start, traces, k);
    NeverRaised(ctx, start, traces[..k], First(traces[k]));
    OtherModesNeverStop(ctx, traces[k], n, id);
  }

  lemma NeverRaised(ctx: Context, start: World, traces: seq<Trace>, now: World)
    requires History(ctx, start, traces, now) && !start.hardStop && !ctx.mode.HardStop?
    ensures !now.hardStop
  {
    hide Unfolds, Carries, Own, Measured, Reached;
    HardStopOfRun(ctx, start, traces, now);
  }

}
