/** A bounded worker pool over one shared index, under every interleaving of its workers. */
module MapConcurrent {
  import opened Wrappers
  import opened Sorting

  datatype Stage = Looping | Mapping(index: nat) | Finished | Failed

  /** What a worker has completed, and where it stands between two awaits. */
  datatype Worker<R> = Worker(completed: seq<(nat, R)>, stage: Stage)

  function Min(a: nat, b: nat): nat {
    if a <= b then a else b
  }

  function Flat<R>(workers: seq<Worker<R>>): seq<(nat, R)> {
    if workers == [] then [] else workers[0].completed + Flat(workers[1..])
  }

  lemma {:induction false} FlatAppend<R>(workers: seq<Worker<R>>, w: nat, after: Worker<R>, entries: seq<(nat, R)>)
    requires w < |workers| && after.completed == workers[w].completed + entries
    ensures multiset(Flat(workers[w := after])) == multiset(Flat(workers)) + multiset(entries)
  {
    if w == 0 {
      assert workers[0 := after][1..] == workers[1..];
    } else {
      FlatAppend(workers[1..], w - 1, after, entries);
      assert workers[w := after][1..] == workers[1..][w - 1 := after];
    }
  }

  lemma {:induction false} FlatEmpty<R>(workers: seq<Worker<R>>)
    requires forall w :: 0 <= w < |workers| ==> workers[w].completed == []
    ensures Flat(workers) == []
  {
    if workers != [] {
      FlatEmpty(workers[1..]);
    }
  }

  // Progress.

  function Rank(s: Stage): nat {
    match s
    case Looping => 1
    case Mapping(_) => 2
    case Finished => 0
    case Failed => 0
  }

  function Ranks<R>(workers: seq<Worker<R>>): nat {
    if workers == [] then 0 else Rank(workers[0].stage) + Ranks(workers[1..])
  }

  lemma {:induction false} RankDrops<R>(workers: seq<Worker<R>>, w: nat, after: Worker<R>)
    requires w < |workers| && Rank(after.stage) < Rank(workers[w].stage)
    ensures Ranks(workers[w := after]) < Ranks(workers)
  {
    if w == 0 {
      assert workers[0 := after][1..] == workers[1..];
    } else {
      RankDrops(workers[1..], w - 1, after);
      assert workers[w := after][1..] == workers[1..][w - 1 := after];
    }
  }

  /** How many mapper calls are under way. */
  function InFlight<R>(workers: seq<Worker<R>>): (n: nat)
    ensures n <= |workers|
  {
    if workers == [] then 0 else (if workers[0].stage.Mapping? then 1 else 0) + InFlight(workers[1..])
  }

  lemma {:induction false} FewerInFlight<R>(workers: seq<Worker<R>>, w: nat, after: Worker<R>)
    requires w < |workers| && !after.stage.Mapping?
    ensures InFlight(workers[w := after]) <= InFlight(workers)
  {
    if w == 0 {
      assert workers[0 := after][1..] == workers[1..];
    } else {
      FewerInFlight(workers[1..], w - 1, after);
      assert workers[w := after][1..] == workers[1..][w - 1 := after];
    }
  }

  lemma {:induction false} LoopingInFlight<R>(workers: seq<Worker<R>>)
    requires forall w :: 0 <= w < |workers| ==> workers[w].stage.Looping?
    ensures InFlight(workers) == 0
  {
    if workers != [] {
      LoopingInFlight(workers[1..]);
    }
  }

  // The order of completion does not matter.

  ghost predicate HasIndex<R>(entries: seq<(nat, R)>, i: nat) {
    exists k :: 0 <= k < |entries| && entries[k].0 == i
  }

  predicate DistinctIndices<R>(entries: seq<(nat, R)>) {
    forall j, k :: 0 <= j < k < |entries| ==> entries[j].0 != entries[k].0
  }

  predicate IndexOrder<R>(a: (nat, R), b: (nat, R)) {
    a.0 <= b.0
  }

  /** Whatever order the entries completed in, sorting puts entry `i` at place `i`. */
  lemma SortedByIndex<R(!new)>(flat: seq<(nat, R)>, order: seq<(nat, R)>, expected: seq<(nat, R)>)
    requires multiset(flat) == multiset(order) && DistinctIndices(order)
    requires forall e :: e in order <==> e in expected
    requires forall i :: 0 <= i < |expected| ==> expected[i].0 == i
    ensures SortBy(flat, IndexOrder<R>) == expected
  {
    SameMembersSameBag(order, expected);
    var r := SortBy(flat, IndexOrder<R>);
    SortBySorted(flat, IndexOrder<R>);
    SameElements(r, expected);
    forall a, b | a in r && b in r && IndexOrder(a, b) && IndexOrder(b, a)
      ensures a == b
    {
      var i :| 0 <= i < |expected| && expected[i] == a;
      var j :| 0 <= j < |expected| && expected[j] == b;
    }
    SortedUnique(r, expected, IndexOrder<R>);
  }

  // The pool's state, and what every interleaving keeps.

  datatype State<R, E> = State(nextIndex: nat, workers: seq<Worker<R>>, failure: Option<E>, claims: seq<nat>,
        order: seq<(nat, R)>)

  type Mapper<!T, R, E> = (T, nat) -> Result<R, E>

  /** Each claimed index was claimed once, in order. */
  ghost predicate ClaimsOk<R, E>(n: nat, s: State<R, E>) {
    s.nextIndex <= n && s.claims == seq(s.nextIndex, i => i)
  }

  /** What completed is what the mapper answered, each index once; the workers hold it, in whatever order. */
  ghost predicate OrderOk<T, R, E>(values: seq<T>, mapper: Mapper<T, R, E>, s: State<R, E>)
    requires s.nextIndex <= |values|
  {
    && multiset(Flat(s.workers)) == multiset(s.order)
    && DistinctIndices(s.order)
    && forall k :: 0 <= k < |s.order| ==>
      s.order[k].0 < s.nextIndex && mapper(values[s.order[k].0], s.order[k].0) == Ok(s.order[k].1)
  }

  predicate Maps<R>(workers: seq<Worker<R>>, w: int, i: nat) {
    0 <= w < |workers| && workers[w].stage == Mapping(i)
  }

  ghost predicate BeingMapped<R>(workers: seq<Worker<R>>, i: nat) {
    exists w :: Maps(workers, w, i)
  }

  /** An index is being mapped by one worker at most, and not once it has completed. */
  ghost predicate MappingOk<R, E>(s: State<R, E>) {
    && (forall w, i: nat :: Maps(s.workers, w, i) ==> i < s.nextIndex && !HasIndex(s.order, i))
    && (forall w, x, i: nat :: Maps(s.workers, w, i) && Maps(s.workers, x, i) ==> w == x)
  }

  /** Unless a call failed, each claimed index has completed or is being mapped. */
  ghost predicate CoverOk<R, E>(s: State<R, E>) {
    s.failure.None? ==>
      && (forall w :: 0 <= w < |s.workers| ==> !s.workers[w].stage.Failed?)
      && (forall i: nat :: i < s.nextIndex ==> HasIndex(s.order, i) || BeingMapped(s.workers, i))
  }

  ghost predicate PoolOk<T, R, E>(values: seq<T>, mapper: Mapper<T, R, E>, s: State<R, E>) {
    && ClaimsOk(|values|, s) && OrderOk(values, mapper, s) && MappingOk(s) && CoverOk(s)
    && (forall w :: 0 <= w < |s.workers| && s.workers[w].stage.Finished? ==> s.nextIndex == |values|)
    && (s.failure.Some? ==> exists i :: 0 <= i < |values| && mapper(values[i], i) == Err(s.failure.value))
  }

  /** A worker at the head of its loop claims the next index, or is finished. */
  function Claimed<R, E>(n: nat, s: State<R, E>, w: nat): State<R, E>
    requires w < |s.workers|
  {
    if s.nextIndex < n then
      s.(nextIndex := s.nextIndex + 1, claims := s.claims + [s.nextIndex],
        workers := s.workers[w := s.workers[w].(stage := Mapping(s.nextIndex))])
    else
      s.(workers := s.workers[w := s.workers[w].(stage := Finished)])
  }

  /** Its mapper call has settled. */
  function Settled<R, E>(s: State<R, E>, w: nat, answer: Result<R, E>): State<R, E>
    requires w < |s.workers| && s.workers[w].stage.Mapping?
  {
    var index := s.workers[w].stage.index;
    match answer
    case Ok(value) =>
      s.(order := s.order + [(index, value)],
        workers := s.workers[w := Worker(s.workers[w].completed + [(index, value)], Looping)])
    case Err(e) =>
      s.(failure := if s.failure.None? then Some(e)
        else s.failure, workers := s.workers[w := s.workers[w].(stage := Failed)])
  }

  /** After an update of worker `w`, who maps what. */
  lemma MapsAfter<R>(workers: seq<Worker<R>>, w: nat, after: Worker<R>, x: int, i: nat)
    requires w < |workers|
    ensures Maps(workers[w := after], x, i) <==> if x == w then after.stage == Mapping(i) else Maps(workers, x, i)
  {
  }

  lemma StillMapped<R>(workers: seq<Worker<R>>, w: nat, after: Worker<R>, i: nat)
    requires w < |workers| && BeingMapped(workers, i) && !Maps(workers, w, i)
    ensures BeingMapped(workers[w := after], i)
  {
    var x :| Maps(workers, x, i);
    MapsAfter(workers, w, after, x, i);
  }

  lemma ClaimKeepsMapping<R, E>(n: nat, s: State<R, E>, w: nat)
    requires w < |s.workers| && s.workers[w].stage.Looping? && MappingOk(s) && CoverOk(s) && s.nextIndex <= n
    requires forall k :: 0 <= k < |s.order| ==> s.order[k].0 < s.nextIndex
    ensures MappingOk(Claimed(n, s, w)) && CoverOk(Claimed(n, s, w))
  {
    hide Maps, HasIndex;
    var t := Claimed(n, s, w);
    var after := t.workers[w];
    forall x, i: nat
      ensures Maps(t.workers, x, i) <==> if x == w then after.stage == Mapping(i) else Maps(s.workers, x, i)
    {
      MapsAfter(s.workers, w, after, x, i);
    }
    LoopingMapsNothing(s.workers, w);
    if s.nextIndex < n {
      NoSuchIndex(s.order, s.nextIndex);
      assert Maps(t.workers, w, s.nextIndex);
    }
    forall i: nat | s.failure.None? && i < s.nextIndex && BeingMapped(s.workers, i)
      ensures BeingMapped(t.workers, i)
    {
      StillMapped(s.workers, w, after, i);
    }
  }

  lemma LoopingMapsNothing<R>(workers: seq<Worker<R>>, w: nat)
    requires w < |workers| && !workers[w].stage.Mapping?
    ensures forall i: nat :: !Maps(workers, w, i)
  {
  }

  lemma NoSuchIndex<R>(order: seq<(nat, R)>, i: nat)
    requires forall k :: 0 <= k < |order| ==> order[k].0 < i
    ensures !HasIndex(order, i)
  {
  }

  lemma ClaimKeepsOrder<T, R, E>(values: seq<T>, mapper: Mapper<T, R, E>, s: State<R, E>, w: nat)
    requires s.nextIndex <= |values| && OrderOk(values, mapper, s) && w < |s.workers|
    ensures OrderOk(values, mapper, Claimed(|values|, s, w))
  {
    hide DistinctIndices;
    FlatAppend(s.workers, w, Claimed(|values|, s, w).workers[w], []);
  }

  lemma ClaimOk<T, R, E>(values: seq<T>, mapper: Mapper<T, R, E>, s: State<R, E>, w: nat)
    requires PoolOk(values, mapper, s) && w < |s.workers| && s.workers[w].stage.Looping?
    ensures PoolOk(values, mapper, Claimed(|values|, s, w))
  {
    hide MappingOk, CoverOk, DistinctIndices, OrderOk;
    OrderInRange(values, mapper, s);
    ClaimKeepsMapping(|values|, s, w);
    ClaimKeepsOrder(values, mapper, s, w);
  }

  lemma OrderInRange<T, R, E>(values: seq<T>, mapper: Mapper<T, R, E>, s: State<R, E>)
    requires s.nextIndex <= |values| && OrderOk(values, mapper, s)
    ensures forall k :: 0 <= k < |s.order| ==> s.order[k].0 < s.nextIndex
  {
  }

  lemma HasIndexAfter<R>(order: seq<(nat, R)>, e: (nat, R), i: nat)
    ensures HasIndex(order + [e], i) <==> HasIndex(order, i) || i == e.0
  {
    var longer := order + [e];
    assert longer[|order|] == e;
    if HasIndex(order, i) {
      var k :| 0 <= k < |order| && order[k].0 == i;
      assert longer[k].0 == i;
    }
  }

  lemma SettleKeepsMapping<R, E>(s: State<R, E>, w: nat, answer: Result<R, E>)
    requires w < |s.workers| && s.workers[w].stage.Mapping? && MappingOk(s) && CoverOk(s)
    ensures MappingOk(Settled(s, w, answer)) && CoverOk(Settled(s, w, answer))
  {
    hide Maps, HasIndex;
    var t := Settled(s, w, answer);
    var index, after := s.workers[w].stage.index, t.workers[w];
    assert Maps(s.workers, w, index) by {
      MapsIndex(s.workers, w);
    }
    forall x, i: nat
      ensures Maps(t.workers, x, i) <==> x != w && Maps(s.workers, x, i)
    {
      MapsAfter(s.workers, w, after, x, i);
    }
    forall i: nat
      ensures HasIndex(t.order, i) <==> HasIndex(s.order, i) || (answer.Ok? && i == index)
    {
      if answer.Ok? {
        HasIndexAfter(s.order, (index, answer.value), i);
      }
    }
    forall i: nat | t.failure.None? && i < s.nextIndex && BeingMapped(s.workers, i) && i != index
      ensures BeingMapped(t.workers, i)
    {
      OtherIndex(s.workers, w, i);
      StillMapped(s.workers, w, after, i);
    }
  }

  lemma MapsIndex<R>(workers: seq<Worker<R>>, w: nat)
    requires w < |workers| && workers[w].stage.Mapping?
    ensures Maps(workers, w, workers[w].stage.index)
  {
  }

  lemma OtherIndex<R>(workers: seq<Worker<R>>, w: nat, i: nat)
    requires w < |workers| && workers[w].stage.Mapping? && i != workers[w].stage.index
    ensures !Maps(workers, w, i)
  {
  }

  lemma SettleKeepsOrder<T, R, E>(values: seq<T>, mapper: Mapper<T, R, E>, s: State<R, E>, w: nat)
    requires s.nextIndex <= |values| && OrderOk(values, mapper, s) && MappingOk(s)
    requires w < |s.workers| && s.workers[w].stage.Mapping? && s.workers[w].stage.index < s.nextIndex
    ensures var index := s.workers[w].stage.index; OrderOk(values, mapper, Settled(s, w, mapper(values[index], index)))
  {
    var index := s.workers[w].stage.index;
    var t := Settled(s, w, mapper(values[index], index));
    MapsIndex(s.workers, w);
    assert !HasIndex(s.order, index);
    if mapper(values[index], index).Ok? {
      FlatAppend(s.workers, w, t.workers[w], [(index, mapper(values[index], index).value)]);
    } else {
      FlatAppend(s.workers, w, t.workers[w], []);
    }
  }

  lemma SettleOk<T, R, E>(values: seq<T>, mapper: Mapper<T, R, E>, s: State<R, E>, w: nat)
    requires PoolOk(values, mapper, s) && w < |s.workers| && s.workers[w].stage.Mapping?
    ensures s.workers[w].stage.index < |values|
    ensures var index := s.workers[w].stage.index; PoolOk(values, mapper, Settled(s, w, mapper(values[index], index)))
  {
    hide CoverOk, OrderOk;
    MapsIndex(s.workers, w);
    SettleKeepsMapping(s, w, mapper(values[s.workers[w].stage.index], s.workers[w].stage.index));
    SettleKeepsOrder(values, mapper, s, w);
  }

  function Expected<T, R, E>(values: seq<T>, mapper: Mapper<T, R, E>): (r: seq<(nat, R)>)
    requires forall i :: 0 <= i < |values| ==> mapper(values[i], i).Ok?
    ensures |r| == |values|
  {
    seq(|values|, i requires 0 <= i < |values| && mapper(values[i], i).Ok? => (i, mapper(values[i], i).value))
  }

  lemma FinishedMapNothing<R>(workers: seq<Worker<R>>, i: nat)
    requires forall w :: 0 <= w < |workers| ==> workers[w].stage.Finished?
    ensures !BeingMapped(workers, i)
  {
  }

  /** When every worker is finished and none failed, everything has been mapped, and sorting restores the order. */
  lemma AllMapped<T, R(!new), E>(values: seq<T>, mapper: Mapper<T, R, E>, s: State<R, E>)
    requires PoolOk(values, mapper, s) && s.failure.None? && (s.workers == [] ==> values == [])
    requires forall w :: 0 <= w < |s.workers| ==> s.workers[w].stage.Finished?
    ensures forall i :: 0 <= i < |values| ==> mapper(values[i], i).Ok?
    ensures SortBy(Flat(s.workers), IndexOrder<R>) == Expected(values, mapper)
  {
    hide MappingOk;
    assert s.nextIndex == |values| by {
      if s.workers != [] {
        assert s.workers[0].stage.Finished?;
      }
    }
    forall i | 0 <= i < |values|
      ensures HasIndex(s.order, i) && mapper(values[i], i).Ok?
    {
      FinishedMapNothing(s.workers, i);
      var k :| 0 <= k < |s.order| && s.order[k].0 == i;
    }
    var expected := Expected(values, mapper);
    forall e
      ensures e in s.order <==> e in expected
    {
      if e in s.order {
        var k :| 0 <= k < |s.order| && s.order[k] == e;
        assert expected[e.0] == e;
      }
      if e in expected {
        var i :| 0 <= i < |expected| && expected[i] == e;
        assert HasIndex(s.order, i);
        var k :| 0 <= k < |s.order| && s.order[k].0 == i;
        assert s.order[k] == e;
      }
    }
    SortedByIndex(Flat(s.workers), s.order, expected);
  }

  class Pool<T, R(!new), E> {
    const values: seq<T>
    const mapper: (T, nat) -> Result<R, E>
    var nextIndex: nat
    var workers: seq<Worker<R>>
    /** The first rejection. */
    var failure: Option<E>
    /** The indices in the order they were claimed. */
    ghost var claims: seq<nat>
    /** The entries in the order they completed. */
    ghost var order: seq<(nat, R)>
    /** The most calls that were ever under way at once. */
    ghost var peak: nat

    ghost function View(): State<R, E>
      reads this
    {
      State(nextIndex, workers, failure, claims, order)
    }

    ghost predicate Valid()
      reads this
    {
      PoolOk(values, mapper, View()) && InFlight(workers) <= peak <= |workers|
    }

    constructor (values: seq<T>, concurrency: nat, mapper: (T, nat) -> Result<R, E>)
      ensures Valid() && this.values == values && this.mapper == mapper
      ensures |workers| == Min(concurrency, |values|)
      ensures View() == State(0, seq(Min(concurrency, |values|), i => Worker([], Looping)), None, [], [])
    {
      this.values, this.mapper := values, mapper;
      nextIndex, failure := 0, None;
      workers := seq(Min(concurrency, |values|), i => Worker([], Looping));
      claims, order, peak := [], [], 0;
      new;
      FlatEmpty(workers);
      LoopingInFlight(workers);
    }

    /** A worker between two awaits at the head of its loop. */
    method Claim(w: nat)
      requires Valid() && w < |workers| && workers[w].stage.Looping?
      modifies this`nextIndex, this`workers, this`claims, this`peak
      ensures Valid() && View() == Claimed(|values|, old(View()), w)
    {
      hide PoolOk;
      ClaimOk(values, mapper, View(), w);
      ClaimsInRange(values, mapper, View());
      if nextIndex < |values| {
        var index := nextIndex;
        nextIndex := nextIndex + 1;
        claims := claims + [index];
        workers := workers[w := workers[w].(stage := Mapping(index))];
        peak := if InFlight(workers) > peak then InFlight(workers) else peak;
      } else {
        FewerInFlight(workers, w, workers[w].(stage := Finished));
        workers := workers[w := workers[w].(stage := Finished)];
      }
    }

    /** Its mapper call has settled. */
    method Settle(w: nat)
      requires Valid() && w < |workers| && workers[w].stage.Mapping?
      modifies this`workers, this`failure, this`order
      ensures Valid() && |workers| == |old(workers)|
      ensures var index := old(workers)[w].stage.index;
        index < |values| && View() == Settled(old(View()), w, mapper(values[index], index))
    {
      hide PoolOk;
      SettleOk(values, mapper, View(), w);
      var index := workers[w].stage.index;
      match mapper(values[index], index)
      case Ok(value) =>
        FewerInFlight(workers, w, Worker(workers[w].completed + [(index, value)], Looping));
        order := order + [(index, value)];
        workers := workers[w := Worker(workers[w].completed + [(index, value)], Looping)];
      case Err(e) =>
        FewerInFlight(workers, w, workers[w].(stage := Failed));
        workers := workers[w := workers[w].(stage := Failed)];
        if failure.None? {
          failure := Some(e);
        }
    }

    predicate Idle()
      reads this
    {
      forall w :: 0 <= w < |workers| ==> workers[w].stage.Finished? || workers[w].stage.Failed?
    }

    /** Any worker that is not finished may go next. Whatever the order, each index is claimed once, from the first on,
        and there are never more calls under way than allowed. */
    method Drain(ghost concurrency: nat)
      requires Valid() && |workers| == Min(concurrency, |values|)
      modifies this
      ensures Valid() && Idle() && |workers| == |old(workers)|
      ensures peak <= concurrency
      ensures claims == seq(nextIndex, i => i) && nextIndex <= |values|
    {
      hide PoolOk;
      while !Idle()
        invariant Valid() && |workers| == |old(workers)|
        decreases |values| - nextIndex, Ranks(workers)
      {
        ClaimsInRange(values, mapper, View());
        var w :| 0 <= w < |workers| && !workers[w].stage.Finished? && !workers[w].stage.Failed?;
        ghost var was := workers;
        if workers[w].stage.Looping? {
          Claim(w);
          if nextIndex == |values| && workers[w].stage.Finished? {
            RankDrops(was, w, workers[w]);
          }
        } else {
          Settle(w);
          RankDrops(was, w, workers[w]);
        }
      }
      ClaimsInRange(values, mapper, View());
    }
  }

  lemma ClaimsInRange<T, R, E>(values: seq<T>, mapper: Mapper<T, R, E>, s: State<R, E>)
    requires PoolOk(values, mapper, s)
    ensures s.nextIndex <= |values| && s.claims == seq(s.nextIndex, i => i)
  {
  }

  /** Where no mapper call fails, the results are those of a sequential map, for every interleaving; otherwise the
      first failure comes out. `None` stands for the refused concurrency. */
  method Run<T, R(!new), E>(values: seq<T>, concurrency: int, mapper: (T, nat) -> Result<R, E>)
      returns (r: Option<Result<seq<R>, E>>)
    ensures r.None? <==> concurrency < 1
    ensures r.Some? ==> (r.value.Ok? <==> forall i :: 0 <= i < |values| ==> mapper(values[i], i).Ok?)
    ensures r.Some? && r.value.Ok? ==>
      |r.value.value| == |values| && forall i :: 0 <= i < |values| ==> mapper(values[i], i) == Ok(r.value.value[i])
    ensures r.Some? && r.value.Err? ==> exists i :: 0 <= i < |values| && mapper(values[i], i) == Err(r.value.error)
  {
    hide OrderOk, MappingOk, SortBy;
    if concurrency < 1 {
      return None;
    }
    var pool := new Pool(values, concurrency, mapper);
    pool.Drain(concurrency);
    if pool.failure.Some? {
      return Some(Err(pool.failure.value));
    }
    AllMapped(values, mapper, pool.View());
    var sorted := SortBy(Flat(pool.workers), IndexOrder<R>);
    return Some(Ok(seq(|sorted|, i requires 0 <= i < |sorted| => sorted[i].1)));
  }

}
