/** What superseding some ids leaves: the cascades of several supersessions compose to the cascade of all their ids. */
module FramingSupersession {
  import opened Wrappers
  import opened FramingKnowledge
  import opened FramingPlan
  import opened FramingRun

  // What is left after some ids were invalidated.

  /** Active in `w` is what was active in `k` and leads to none of the ids; it is unchanged. */
  ghost predicate Left(k: Knowledge, ids: set<Id>, w: Knowledge) {
    && w.Keys == k.Keys
    && (forall s :: s in k ==> |w[s]| == |k[s]|)
    && (forall s, i :: s in k && 0 <= i < |k[s]| ==> LeftAt(k, ids, k[s][i], w[s][i]))
  }

  ghost predicate LeftAt(k: Knowledge, ids: set<Id>, before: Item, after: Item) {
    && (after.active <==> before.active && !Invalid(k, ids, before.id))
    && (after.active ==> after == before)
  }

  lemma NothingInvalid(k: Knowledge)
    ensures Left(k, {}, k)
  {
  }

  lemma InvalidMonotone(small: Knowledge, large: Knowledge, ids: set<Id>, more: set<Id>, id: Id)
    requires Invalid(small, ids, id) && ids <= more
    requires forall a, b :: ActiveEdge(small, a, b) ==> ActiveEdge(large, a, b)
    ensures Invalid(large, more, id)
  {
    hide ActiveEdge;
    var p :| LeadsToSeed(small, ids, p) && p[0] == id;
    assert LeadsToSeed(large, more, p);
  }

  lemma InvalidBy(k: Knowledge, ids: set<Id>, p: seq<Id>)
    requires LeadsToSeed(k, ids, p)
    ensures Invalid(k, ids, p[0])
  {
  }

  lemma NewSeed(k: Knowledge, ids: set<Id>, e: Id, p: seq<Id>)
    requires LeadsToSeed(k, ids + {e}, p) && !Invalid(k, ids, p[0])
    ensures Invalid(k, {e}, p[0])
  {
    hide Invalid, ActiveEdge;
    if p[|p| - 1] in ids {
      InvalidBy(k, ids, p);
      assert false;
    }
    InvalidBy(k, {e}, p);
  }

  lemma LeadsToNew(k: Knowledge, ids: set<Id>, e: Id, id: Id)
    requires Invalid(k, ids + {e}, id) && !Invalid(k, ids, id)
    ensures Invalid(k, {e}, id)
  {
    hide ActiveEdge;
    var p :| LeadsToSeed(k, ids + {e}, p) && p[0] == id;
    NewSeed(k, ids, e, p);
  }

  function Marked(w: Knowledge, home: Section, e: Id, heir: Id, revision: nat): Knowledge {
    w[home := Retired(At(w, home), e, heir, revision)]
  }

  lemma MarkedItem(k: Knowledge, ids: set<Id>, w: Knowledge, home: Section, e: Id, heir: Id, revision: nat, s: Section,
        i: nat)
    requires Left(k, ids, w) && s in k && i < |k[s]|
    ensures var marked := Marked(w, home, e, heir, revision);
      && s in marked && |marked[s]| == |k[s]|
      && (marked[s][i].active <==> w[s][i].active && !(s == home && k[s][i].id == e))
      && (marked[s][i].active ==> marked[s][i] == k[s][i])
  {
    hide Invalid;
    assert LeftAt(k, ids, k[s][i], w[s][i]);
  }

  lemma MarkedEdges(k: Knowledge, ids: set<Id>, w: Knowledge, home: Section, e: Id, heir: Id, revision: nat, a: Id,
        b: Id)
    requires Left(k, ids, w) && ActiveEdge(Marked(w, home, e, heir, revision), a, b) && home in k
    ensures ActiveEdge(k, a, b)
  {
    hide Invalid, Left, Marked;
    var marked := Marked(w, home, e, heir, revision);
    var item :| Holds(marked, item) && item.active && item.id == a && b in Deps(item);
    var s :| s in marked && item in marked[s];
    MarkedShape(k, ids, w, home, e, heir, revision);
    var i :| 0 <= i < |marked[s]| && marked[s][i] == item;
    MarkedItem(k, ids, w, home, e, heir, revision, s, i);
    assert k[s][i] in k[s];
    assert Holds(k, item);
  }

  lemma MarkedShape(k: Knowledge, ids: set<Id>, w: Knowledge, home: Section, e: Id, heir: Id, revision: nat)
    requires Left(k, ids, w) && home in k
    ensures var marked := Marked(w, home, e, heir, revision);
      marked.Keys == k.Keys && forall s :: s in k ==> |marked[s]| == |k[s]|
  {
    hide LeftAt;
  }

  /** A chain to `e` that touches nothing invalid survives the earlier invalidations. */
  lemma {:induction false} ChainSurvives(k: Knowledge, ids: set<Id>, w: Knowledge, home: Section, e: Id, heir: Id,
        revision: nat,
        p: seq<Id>)
    requires Left(k, ids, w) && home in k && LeadsToSeed(k, {e}, p) && !Invalid(k, ids, p[0])
    ensures Invalid(Marked(w, home, e, heir, revision), {e}, p[0])
    decreases |p|
  {
    hide Left, Marked, Invalid, ActiveEdge;
    var marked := Marked(w, home, e, heir, revision);
    if p[0] == e {
      SeedIsInvalid(marked, {e}, e);
    } else {
      assert ActiveEdge(k, p[0], p[1]);
      EdgeSurvives(k, ids, w, home, e, heir, revision, p[0], p[1]);
      if Invalid(k, ids, p[1]) {
        EdgeToInvalid(k, ids, p[0], p[1]);
        assert false;
      }
      var q := p[1..];
      forall i | 0 <= i < |q| - 1
        ensures ActiveEdge(k, q[i], q[i + 1])
      {
        assert ActiveEdge(k, p[i + 1], p[i + 2]);
      }
      ChainSurvives(k, ids, w, home, e, heir, revision, q);
      EdgeToInvalid(marked, {e}, p[0], p[1]);
    }
  }

  lemma EdgeSurvives(k: Knowledge, ids: set<Id>, w: Knowledge, home: Section, e: Id, heir: Id, revision: nat, a: Id,
        b: Id)
    requires Left(k, ids, w) && home in k && ActiveEdge(k, a, b) && a != e && !Invalid(k, ids, a)
    ensures ActiveEdge(Marked(w, home, e, heir, revision), a, b)
  {
    hide Invalid, Marked;
    var marked := Marked(w, home, e, heir, revision);
    var item :| Holds(k, item) && item.active && item.id == a && b in Deps(item);
    var s :| s in k && item in k[s];
    var i :| 0 <= i < |k[s]| && k[s][i] == item;
    MarkedItem(k, ids, w, home, e, heir, revision, s, i);
    assert LeftAt(k, ids, k[s][i], w[s][i]);
    assert marked[s][i] in marked[s];
    assert Holds(marked, item);
  }

  lemma OnlyItem(k: Knowledge, ids: set<Id>, w: Knowledge, home: Section, e: Id, heir: Id, revision: nat, s: Section,
        i: nat)
    requires UniqueActive(k) && Left(k, ids, w) && home in k && s in k && i < |k[s]|
    requires var marked := Marked(w, home, e, heir, revision);
      s in marked && i < |marked[s]| && marked[s][i].active && marked[s][i].id != e &&
        Invalid(marked, {e}, marked[s][i].id)
    ensures Affected(Marked(w, home, e, heir, revision), {e}, Marked(w, home, e, heir, revision)[s][i])
  {
    hide Left, Marked, UniqueActive;
    var marked := Marked(w, home, e, heir, revision);
    var p :| LeadsToSeed(marked, {e}, p) && p[0] == marked[s][i].id;
    assert ActiveEdge(marked, p[0], p[1]);
    var item :| Holds(marked, item) && item.active && item.id == p[0] && p[1] in Deps(item);
    var t :| t in marked && item in marked[t];
    var j :| 0 <= j < |marked[t]| && marked[t][j] == item;
    MarkedShape(k, ids, w, home, e, heir, revision);
    MarkedItem(k, ids, w, home, e, heir, revision, s, i);
    MarkedItem(k, ids, w, home, e, heir, revision, t, j);
    UniqueAt(k, s, i, t, j);
    var q := p[1..];
    forall m | 0 <= m < |q| - 1
      ensures ActiveEdge(marked, q[m], q[m + 1])
    {
      assert ActiveEdge(marked, p[m + 1], p[m + 2]);
    }
    assert LeadsToSeed(marked, {e}, q) && q[0] == p[1];
    assert Invalid(marked, {e}, p[1]);
  }

  /** One item through one more invalidation. */
  lemma LeftThrough(k: Knowledge, ids: set<Id>, w: Knowledge, home: Section, e: Id, heir: Id, revision: nat, s: Section,
        i: nat)
    requires UniqueActive(k) && Left(k, ids, w) && home in k && s in k && i < |k[s]|
    requires exists n :: ActiveAt(k, home, n) && k[home][n].id == e
    ensures var marked := Marked(w, home, e, heir, revision);
      s in marked && i < |marked[s]| &&
        LeftAt(k, ids + {e}, k[s][i], CascadedItem(marked, {e}, marked[s][i], heir, revision))
  {
    hide Left, Marked, Invalid, UniqueActive, Affected;
    var marked := Marked(w, home, e, heir, revision);
    var n :| ActiveAt(k, home, n) && k[home][n].id == e;
    var item := k[s][i];
    MarkedItem(k, ids, w, home, e, heir, revision, s, i);
    LeftHere(k, ids, w, s, i);
    if !w[s][i].active {
      InactiveStays(marked, {e}, marked[s][i], heir, revision);
      if item.active {
        InvalidMonotone(k, k, ids, ids + {e}, item.id);
      }
    } else if item.id == e {
      UniqueAt(k, s, i, home, n);
      InactiveStays(marked, {e}, marked[s][i], heir, revision);
      SeedIsInvalid(k, ids + {e}, e);
    } else {
      if Affected(marked, {e}, item) {
        assert marked[s][i] in marked[s];
        assert Holds(marked, item);
        AffectedIsInvalid(marked, {e}, item);
        forall a, b | ActiveEdge(marked, a, b)
          ensures ActiveEdge(k, a, b)
        {
          MarkedEdges(k, ids, w, home, e, heir, revision, a, b);
        }
        InvalidMonotone(marked, k, {e}, ids + {e}, item.id);
      }
      if Invalid(k, ids + {e}, item.id) {
        LeadsToNew(k, ids, e, item.id);
        ChainFound(k, ids, w, home, e, heir, revision, item.id);
        OnlyItem(k, ids, w, home, e, heir, revision, s, i);
      }
    }
  }

  lemma ChainFound(k: Knowledge, ids: set<Id>, w: Knowledge, home: Section, e: Id, heir: Id, revision: nat, id: Id)
    requires Left(k, ids, w) && home in k && Invalid(k, {e}, id) && !Invalid(k, ids, id)
    ensures Invalid(Marked(w, home, e, heir, revision), {e}, id)
  {
    var p :| LeadsToSeed(k, {e}, p) && p[0] == id;
    ChainSurvives(k, ids, w, home, e, heir, revision, p);
  }

  lemma LeftHere(k: Knowledge, ids: set<Id>, w: Knowledge, s: Section, i: nat)
    requires Left(k, ids, w) && s in k && i < |k[s]|
    ensures s in w && i < |w[s]| && LeftAt(k, ids, k[s][i], w[s][i])
  {
  }

  lemma InactiveStays(k: Knowledge, ids: set<Id>, item: Item, heir: Id, revision: nat)
    requires !item.active
    ensures CascadedItem(k, ids, item, heir, revision) == item
  {
  }

  // Finding active items.

  lemma UniqueAt(k: Knowledge, s: Section, i: int, t: Section, j: int)
    requires UniqueActive(k)
    ensures ActiveAt(k, s, i) && ActiveAt(k, t, j) && k[s][i].id == k[t][j].id ==> s == t && i == j
  {
  }

  lemma {:induction false} FoundHere(items: seq<Item>, id: Id) returns (i: nat)
    requires FindActive(items, id).Some?
    ensures i < |items| && Some(items[i]) == FindActive(items, id) && items[i].active && items[i].id == id
  {
    if items[0].active && items[0].id == id {
      i := 0;
    } else {
      i := FoundHere(items[1..], id);
      i := i + 1;
    }
  }

  /** An active item is found by its id where that is unambiguous. */
  lemma FoundAt(k: Knowledge, s: Section, i: int)
    requires ActiveAt(k, s, i) && forall j :: ActiveAt(k, s, j) && k[s][j].id == k[s][i].id ==> j == i
    ensures FindActive(At(k, s), k[s][i].id) == Some(k[s][i])
  {
    FoundIn(k[s], k[s][i].id);
    var j := FoundHere(k[s], k[s][i].id);
    assert ActiveAt(k, s, j);
  }

  /** After supersessions an id is found exactly where it was, unless it leads to a superseded one. */
  lemma FoundAfter(k: Knowledge, ids: set<Id>, w: Knowledge, s: Section, id: Id)
    requires UniqueActive(k) && Left(k, ids, w)
    ensures FindActive(At(w, s), id) == if Invalid(k, ids, id) then None else FindActive(At(k, s), id)
  {
    hide UniqueActive, Invalid, Left, LeftAt, FindActive;
    LeftShape(k, ids, w);
    FoundNowhere(s, id);
    if FindActive(At(k, s), id).Some? {
      var n := FoundHere(At(k, s), id);
      LeftHere(k, ids, w, s, n);
      ActiveIsUnchanged(k, ids, k[s][n], w[s][n]);
      if w[s][n].active {
        FoundOnce(k, ids, w, s, n);
      }
    }
    if FindActive(At(w, s), id).Some? {
      var i := FoundHere(At(w, s), id);
      LeftHere(k, ids, w, s, i);
      ActiveIsUnchanged(k, ids, k[s][i], w[s][i]);
      FoundIn(k[s], id);
    }
  }

  lemma FoundNowhere(s: Section, id: Id)
    ensures FindActive([], id) == None
  {
  }

  lemma FoundOnce(k: Knowledge, ids: set<Id>, w: Knowledge, s: Section, i: nat)
    requires UniqueActive(k) && Left(k, ids, w) && ActiveAt(w, s, i)
    ensures FindActive(At(w, s), w[s][i].id) == Some(w[s][i])
  {
    hide UniqueActive, Invalid;
    forall j | ActiveAt(w, s, j) && w[s][j].id == w[s][i].id
      ensures j == i
    {
      assert LeftAt(k, ids, k[s][i], w[s][i]) && LeftAt(k, ids, k[s][j], w[s][j]);
      UniqueAt(k, s, i, s, j);
    }
    FoundAt(w, s, i);
  }

  /** One more supersession: it finds its item exactly where an active item has the key and the earlier ones did not
      take it, and leaves what it should. */
  lemma OneSupersession(k: Knowledge, ids: set<Id>, w: Knowledge, home: Section, e: Id, heir: Id, revision: nat)
    requires UniqueActive(k) && Left(k, ids, w)
    ensures Supersede(w, home, e, heir, revision).Ok? <==> ActiveKey(k, home, e) && !Invalid(k, ids, e)
    ensures Supersede(w, home, e, heir, revision).Ok? ==>
      Left(k, ids + {e}, Supersede(w, home, e, heir, revision).value)
  {
    hide UniqueActive, Invalid, Marked, CascadedItem, Left, LeftAt, FindActive;
    FoundAfter(k, ids, w, home, e);
    if ActiveKey(k, home, e) {
      FoundNowhere(home, e);
      LeftShape(k, ids, w);
      var n := FoundHere(At(k, home), e);
      assert ActiveAt(k, home, n);
      var marked := Marked(w, home, e, heir, revision);
      var after := Cascaded(marked, {e}, heir, revision);
      MarkedShape(k, ids, w, home, e, heir, revision);
      forall s, i | s in k && 0 <= i < |k[s]|
        ensures LeftAt(k, ids + {e}, k[s][i], after[s][i])
      {
        LeftThrough(k, ids, w, home, e, heir, revision, s, i);
      }
      assert Left(k, ids + {e}, after) by {
        LeftIntro(k, ids + {e}, after);
      }
      MarkedIs(w, home, e, heir, revision);
    }
  }

  lemma MarkedIs(w: Knowledge, home: Section, e: Id, heir: Id, revision: nat)
    ensures Marked(w, home, e, heir, revision) == w[home := Retired(At(w, home), e, heir, revision)]
  {
  }

  lemma LeftShape(k: Knowledge, ids: set<Id>, w: Knowledge)
    requires Left(k, ids, w)
    ensures w.Keys == k.Keys && forall s :: s in k ==> |w[s]| == |k[s]|
  {
  }

  lemma ActiveIsUnchanged(k: Knowledge, ids: set<Id>, before: Item, after: Item)
    requires LeftAt(k, ids, before, after)
    ensures after.active <==> before.active && !Invalid(k, ids, before.id)
    ensures after.active ==> after == before
  {
  }

  lemma LeftIntro(k: Knowledge, ids: set<Id>, w: Knowledge)
    requires w.Keys == k.Keys && forall s :: s in k ==> |w[s]| == |k[s]|
    requires forall s, i :: s in k && 0 <= i < |k[s]| ==> LeftAt(k, ids, k[s][i], w[s][i])
    ensures Left(k, ids, w)
  {
  }

  /** An active item that leads to a seed without being one depends on what leads there. */
  lemma InvalidNonSeed(k: Knowledge, ids: set<Id>, s: Section, i: int)
    requires UniqueActive(k) && ActiveAt(k, s, i) && k[s][i].id !in ids && Invalid(k, ids, k[s][i].id)
    ensures Affected(k, ids, k[s][i])
  {
    hide UniqueActive;
    var p :| LeadsToSeed(k, ids, p) && p[0] == k[s][i].id;
    assert ActiveEdge(k, p[0], p[1]);
    var item :| Holds(k, item) && item.active && item.id == p[0] && p[1] in Deps(item);
    var t :| t in k && item in k[t];
    var j :| 0 <= j < |k[t]| && k[t][j] == item;
    UniqueAt(k, s, i, t, j);
    var q := p[1..];
    forall m | 0 <= m < |q| - 1
      ensures ActiveEdge(k, q[m], q[m + 1])
    {
      assert ActiveEdge(k, p[m + 1], p[m + 2]);
    }
    assert LeadsToSeed(k, ids, q) && q[0] == p[1];
    assert Invalid(k, ids, p[1]);
  }

}
