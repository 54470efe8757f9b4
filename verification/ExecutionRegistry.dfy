/** The registry of a project's executions: records are added or replaced, never dropped, and keep whom and what they
    were for. */
module ExecutionRegistry {
  import opened Wrappers
  import opened ExecutionRecord
  import opened Sorting

  datatype Registry = Registry(projectId: string, executions: seq<Record>, updatedAt: int)

  datatype RegistryError = OtherProject | AlreadyExists | NotFound | TargetImmutable | OrderImmutable | TimeReversed
    | Duplicate

  type Collation = (string, string) -> int

  /** By creation time, then by id. */
  function Chronology(collate: Collation): (Record, Record) -> bool {
    (a: Record, b: Record) => a.createdAt < b.createdAt || (a.createdAt == b.createdAt && collate(a.id, b.id) <= 0)
  }

  predicate ValidExecutions(projectId: string, executions: seq<Record>) {
    && (forall i :: 0 <= i < |executions| ==> executions[i].order.projectId == projectId)
    && (forall i, j :: 0 <= i < j < |executions| ==> executions[i].id != executions[j].id)
  }

  /** The loop that fills a set of ids. */
  method ValidateExecutions(projectId: string, executions: seq<Record>) returns (ok: bool)
    ensures ok <==> ValidExecutions(projectId, executions)
  {
    var ids: set<string> := {};
    var i := 0;
    while i < |executions|
      invariant 0 <= i <= |executions|
      invariant forall id :: id in ids <==> exists j :: 0 <= j < i && executions[j].id == id
      invariant ValidExecutions(projectId, executions[..i])
    {
      var record := executions[i];
      if record.order.projectId != projectId {
        return false;
      }
      if record.id in ids {
        return false;
      }
      ids := ids + {record.id};
      assert forall j :: 0 <= j < i ==> executions[..i][j] == executions[j];
      i := i + 1;
    }
    assert executions[..i] == executions;
    return true;
  }

  function Create(projectId: string, executions: seq<Record>, updatedAt: int, collate: Collation)
      : Result<Registry, RegistryError> {
    if ValidExecutions(projectId, executions) then Ok(Registry(projectId, SortBy(executions, Chronology(collate)),
      updatedAt))
    else Err(Duplicate)
  }

  function Empty(projectId: string, updatedAt: int): Registry {
    Registry(projectId, [], updatedAt)
  }

  function Find(executions: seq<Record>, id: string): (r: Option<Record>)
    ensures r.Some? ==> r.value in executions && r.value.id == id
    ensures r.None? ==> forall record :: record in executions ==> record.id != id
  {
    if executions == [] then None
    else if executions[0].id == id then Some(executions[0])
    else Find(executions[1..], id)
  }

  function WithExecutions(reg: Registry, executions: seq<Record>, updatedAt: int, collate: Collation)
      : Result<Registry, RegistryError> {
    if updatedAt < reg.updatedAt then Err(TimeReversed) else Create(reg.projectId, executions, updatedAt, collate)
  }

  function Add(reg: Registry, record: Record, updatedAt: int, collate: Collation): Result<Registry, RegistryError> {
    if record.order.projectId != reg.projectId then Err(OtherProject)
    else if Find(reg.executions, record.id).Some? then Err(AlreadyExists)
    else WithExecutions(reg, reg.executions + [record], updatedAt, collate)
  }

  function Replaced(executions: seq<Record>, record: Record): (r: seq<Record>)
    ensures |r| == |executions|
  {
    seq(|executions|, i requires 0 <= i < |executions| => if executions[i].id == record.id then record
      else executions[i])
  }

  function Replace(reg: Registry, record: Record, updatedAt: int, collate: Collation): Result<Registry, RegistryError> {
    if record.order.projectId != reg.projectId then Err(OtherProject)
    else
      var current := Find(reg.executions, record.id);
      if current.None? then Err(NotFound)
      else if current.value.target != record.target then Err(TargetImmutable)
      else if current.value.order != record.order then Err(OrderImmutable)
      else WithExecutions(reg, Replaced(reg.executions, record), updatedAt, collate)
  }

  /** What every registry satisfies. */
  ghost predicate RegistryOk(reg: Registry, collate: Collation) {
    ValidExecutions(reg.projectId, reg.executions) && Sorted(reg.executions, Chronology(collate))
  }

  /** The same execution, possibly further on. */
  predicate SameExecution(a: Record, b: Record) {
    a.id == b.id && a.target == b.target && a.order == b.order
  }

  /** Every execution is still there. */
  ghost predicate Keeps(before: Registry, after: Registry) {
    && after.projectId == before.projectId && before.updatedAt <= after.updatedAt
    && forall r :: r in before.executions ==> exists q :: q in after.executions && SameExecution(r, q)
  }

  ghost predicate Ordering(collate: Collation) {
    TotalPreorder(Chronology(collate))
  }

  lemma UniqueIdsOfBag(xs: seq<Record>, ys: seq<Record>, projectId: string)
    requires multiset(xs) == multiset(ys) && ValidExecutions(projectId, ys)
    ensures ValidExecutions(projectId, xs)
  {
    PermutedNoRepeats(ys, xs);
    SameElements(xs, ys);
    forall i | 0 <= i < |xs|
      ensures xs[i] in ys && xs[i].order.projectId == projectId
    {
      assert xs[i] in xs;
    }
  }

  lemma SameIdSameRecord(ys: seq<Record>, projectId: string, a: Record, b: Record)
    requires ValidExecutions(projectId, ys) && a in ys && b in ys && a.id == b.id
    ensures a == b
  {
    var i :| 0 <= i < |ys| && ys[i] == a;
    var j :| 0 <= j < |ys| && ys[j] == b;
  }

  lemma CreatedOk(projectId: string, executions: seq<Record>, updatedAt: int, collate: Collation)
    requires Ordering(collate) && ValidExecutions(projectId, executions)
    ensures var r := Create(projectId, executions, updatedAt, collate);
      r.Ok? && RegistryOk(r.value, collate) && multiset(r.value.executions) == multiset(executions)
  {
    SortBySorted(executions, Chronology(collate));
    UniqueIdsOfBag(SortBy(executions, Chronology(collate)), executions, projectId);
  }

  /** Adding succeeds exactly for a new id of the same project in due time, and adds that record and nothing else. */
  lemma AddKeeps(reg: Registry, record: Record, updatedAt: int, collate: Collation)
    requires Ordering(collate) && RegistryOk(reg, collate)
    ensures Add(reg, record, updatedAt, collate).Ok? <==>
      (record.order.projectId == reg.projectId && reg.updatedAt <= updatedAt &&
        forall other :: other in reg.executions ==> other.id != record.id)
    ensures var r := Add(reg, record, updatedAt, collate);
      r.Ok? ==> RegistryOk(r.value, collate) && Keeps(reg, r.value) && r.value.updatedAt == updatedAt &&
        multiset(r.value.executions) == multiset(reg.executions) + multiset{record}
  {
    hide SortBy, Sorted, Ordering;
    if record.order.projectId == reg.projectId && Find(reg.executions, record.id).None? {
      var executions := reg.executions + [record];
      assert ValidExecutions(reg.projectId, executions);
      CreatedOk(reg.projectId, executions, updatedAt, collate);
      if reg.updatedAt <= updatedAt {
        var after := Add(reg, record, updatedAt, collate).value;
        SameElements(after.executions, executions);
        forall r | r in reg.executions
          ensures exists q :: q in after.executions && SameExecution(r, q)
        {
          assert r in executions && SameExecution(r, r);
        }
      }
    }
  }

  lemma ReplacedValid(projectId: string, executions: seq<Record>, record: Record)
    requires ValidExecutions(projectId, executions) && record.order.projectId == projectId
    ensures ValidExecutions(projectId, Replaced(executions, record))
  {
  }

  lemma ReplacedMembers(executions: seq<Record>, record: Record, r: Record)
    requires r in executions
    ensures (if r.id == record.id then record else r) in Replaced(executions, record)
  {
    var i :| 0 <= i < |executions| && executions[i] == r;
    assert Replaced(executions, record)[i] == if r.id == record.id then record else r;
  }

  /** The record stands where the earlier one stood, among the others as they were. */
  ghost predicate OnlyReplaced(before: Registry, record: Record, after: Registry) {
    && record in after.executions && |after.executions| == |before.executions|
    && forall other :: other in before.executions && other.id != record.id ==> other in after.executions
  }

  /** Replacing succeeds exactly for a known execution with the same target and order in due time, puts the new record
      in its place and leaves every other one as it was. */
  lemma ReplaceKeeps(reg: Registry, record: Record, updatedAt: int, collate: Collation)
    requires Ordering(collate) && RegistryOk(reg, collate)
    ensures Replace(reg, record, updatedAt, collate).Ok? <==>
      (record.order.projectId == reg.projectId && reg.updatedAt <= updatedAt &&
        exists current :: current in reg.executions && SameExecution(current, record))
    ensures var r := Replace(reg, record, updatedAt, collate);
      r.Ok? ==>
        && RegistryOk(r.value, collate) && Keeps(reg, r.value) && OnlyReplaced(reg, record, r.value)
        && r.value.updatedAt == updatedAt
  {
    hide SortBy, Sorted, Ordering, Replaced;
    var current := Find(reg.executions, record.id);
    if record.order.projectId == reg.projectId && current.Some? {
      ReplacedValid(reg.projectId, reg.executions, record);
      CreatedOk(reg.projectId, Replaced(reg.executions, record), updatedAt, collate);
      forall other | other in reg.executions && SameExecution(other, record)
        ensures other == current.value
      {
        SameIdSameRecord(reg.executions, reg.projectId, other, current.value);
      }
      var r := Replace(reg, record, updatedAt, collate);
      if r.Ok? {
        assert SameExecution(current.value, record);
        SameElements(r.value.executions, Replaced(reg.executions, record));
        ReplacedMembers(reg.executions, record, current.value);
        ReplacedKeep(reg, record, r.value);
      }
    }
  }

  lemma ReplacedKeep(reg: Registry, record: Record, after: Registry)
    requires ValidExecutions(reg.projectId, reg.executions)
    requires exists current :: current in reg.executions && SameExecution(current, record)
    requires forall q :: q in after.executions <==> q in Replaced(reg.executions, record)
    ensures forall r :: r in reg.executions ==> exists q :: q in after.executions && SameExecution(r, q)
    ensures forall other :: other in reg.executions && other.id != record.id ==> other in after.executions
  {
    hide Replaced;
    var current :| current in reg.executions && SameExecution(current, record);
    forall r | r in reg.executions
      ensures exists q :: q in after.executions && SameExecution(r, q)
      ensures r.id != record.id ==> r in after.executions
    {
      ReplacedMembers(reg.executions, record, r);
      if r.id == record.id {
        SameIdSameRecord(reg.executions, reg.projectId, r, current);
        assert SameExecution(r, record);
      } else {
        assert SameExecution(r, r);
      }
    }
  }

  // Runs.

  datatype Change = Added(record: Record, at: int) | Updated(record: Record, at: int)

  function Changed(reg: Registry, c: Change, collate: Collation): Result<Registry, RegistryError> {
    if c.Added? then Add(reg, c.record, c.at, collate) else Replace(reg, c.record, c.at, collate)
  }

  ghost predicate IsHistory(registries: seq<Registry>, changes: seq<Change>, collate: Collation) {
    && |registries| == |changes| + 1
    && (exists projectId, at :: registries[0] == Empty(projectId, at))
    && forall i :: 0 <= i < |changes| ==> Changed(registries[i], changes[i], collate) == Ok(registries[i + 1])
  }

  lemma {:induction false} HistoryOk(registries: seq<Registry>, changes: seq<Change>, collate: Collation, i: nat)
    requires Ordering(collate) && IsHistory(registries, changes, collate) && i <= |changes|
    ensures RegistryOk(registries[i], collate)
  {
    hide Add, Replace, RegistryOk, Ordering, Keeps;
    if i == 0 {
      EmptyOk(registries[0], collate);
    } else {
      HistoryOk(registries, changes, collate, i - 1);
      assert Changed(registries[i - 1], changes[i - 1], collate) == Ok(registries[i]);
      AddKeeps(registries[i - 1], changes[i - 1].record, changes[i - 1].at, collate);
      ReplaceKeeps(registries[i - 1], changes[i - 1].record, changes[i - 1].at, collate);
    }
  }

  /** In every state the executions are listed by creation, those created together by the comparison of their ids, and
      each id once. */
  lemma HistoryListed(registries: seq<Registry>, changes: seq<Change>, collate: Collation, i: nat)
    requires Ordering(collate) && IsHistory(registries, changes, collate) && i <= |changes|
    ensures var listed := registries[i].executions;
      forall j, k :: 0 <= j < k < |listed| ==>
        && listed[j].id != listed[k].id && listed[j].createdAt <= listed[k].createdAt
        && (listed[j].createdAt == listed[k].createdAt ==> collate(listed[j].id, listed[k].id) <= 0)
  {
    hide Ordering;
    HistoryOk(registries, changes, collate, i);
    var listed := registries[i].executions;
    forall j, k | 0 <= j < k < |listed|
      ensures listed[j].id != listed[k].id && listed[j].createdAt <= listed[k].createdAt
      ensures listed[j].createdAt == listed[k].createdAt ==> collate(listed[j].id, listed[k].id) <= 0
    {
      assert Chronology(collate)(listed[j], listed[k]);
    }
  }

  lemma EmptyOk(reg: Registry, collate: Collation)
    requires reg.executions == []
    ensures RegistryOk(reg, collate)
  {
  }

  lemma KeepsTrans(a: Registry, b: Registry, c: Registry)
    requires Keeps(a, b) && Keeps(b, c)
    ensures Keeps(a, c)
  {
    forall r | r in a.executions
      ensures exists q :: q in c.executions && SameExecution(r, q)
    {
      var q :| q in b.executions && SameExecution(r, q);
      var p :| p in c.executions && SameExecution(q, p);
      assert SameExecution(r, p);
    }
  }

  lemma KeepsRefl(a: Registry)
    ensures Keeps(a, a)
  {
    forall r | r in a.executions
      ensures exists q :: q in a.executions && SameExecution(r, q)
    {
      assert SameExecution(r, r);
    }
  }

  /** Over any history, nothing that was ever registered is lost or redirected. */
  lemma {:induction false} HistoryKeeps(registries: seq<Registry>, changes: seq<Change>, collate: Collation, i: nat,
        j: nat)
    requires Ordering(collate) && IsHistory(registries, changes, collate) && i <= j <= |changes|
    ensures Keeps(registries[i], registries[j])
    decreases j
  {
    hide Add, Replace, RegistryOk, Ordering, Keeps;
    if i == j {
      KeepsRefl(registries[i]);
    } else {
      HistoryKeeps(registries, changes, collate, i, j - 1);
      HistoryOk(registries, changes, collate, j - 1);
      assert Changed(registries[j - 1], changes[j - 1], collate) == Ok(registries[j]);
      AddKeeps(registries[j - 1], changes[j - 1].record, changes[j - 1].at, collate);
      ReplaceKeeps(registries[j - 1], changes[j - 1].record, changes[j - 1].at, collate);
      KeepsTrans(registries[i], registries[j - 1], registries[j]);
    }
  }

}
