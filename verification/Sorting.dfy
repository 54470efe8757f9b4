/** Stable sorting by a comparison, as JavaScript's Array.prototype.sort promises it. */
module Sorting {

  ghost predicate TotalPreorder<T(!new)>(leq: (T, T) -> bool) {
    && (forall a, b :: leq(a, b) || leq(b, a))
    && (forall a, b, c :: leq(a, b) && leq(b, c) ==> leq(a, c))
  }

  /** Among the given elements, only equal ones tie. */
  ghost predicate NoTies<T>(s: seq<T>, leq: (T, T) -> bool) {
    forall a, b :: a in s && b in s && leq(a, b) && leq(b, a) ==> a == b
  }

  ghost predicate Sorted<T>(s: seq<T>, leq: (T, T) -> bool) {
    forall i, j :: 0 <= i < j < |s| ==> leq(s[i], s[j])
  }

  function Insert<T>(x: T, s: seq<T>, leq: (T, T) -> bool): (r: seq<T>)
    ensures multiset(r) == multiset{x} + multiset(s)
  {
    if s == [] then [x]
    else if leq(x, s[0]) then
      assert multiset([x] + s) == multiset{x} + multiset(s);
      [x] + s
    else
      var rest := Insert(x, s[1..], leq);
      assert s == [s[0]] + s[1..];
      [s[0]] + rest
  }

  function SortBy<T>(s: seq<T>, leq: (T, T) -> bool): (r: seq<T>)
    ensures multiset(r) == multiset(s)
    ensures |r| == |s|
  {
    if s == [] then []
    else
      assert s == [s[0]] + s[1..];
      var r := Insert(s[0], SortBy(s[1..], leq), leq);
      assert |multiset(r)| == |multiset(s)|;
      r
  }

  lemma SameElements<T>(r: seq<T>, s: seq<T>)
    requires multiset(r) == multiset(s)
    ensures |r| == |s|
    ensures forall x :: x in r <==> x in s
  {
    assert |multiset(r)| == |multiset(s)|;
    forall x
      ensures x in r <==> x in s
    {
      assert x in multiset(r) <==> x in multiset(s);
    }
  }

  lemma {:induction false} InsertSorted<T(!new)>(x: T, s: seq<T>, leq: (T, T) -> bool)
    requires TotalPreorder(leq) && Sorted(s, leq)
    ensures Sorted(Insert(x, s, leq), leq)
  {
    if s == [] {
    } else if leq(x, s[0]) {
      forall y | y in s
        ensures leq(x, y)
      {
        assert leq(s[0], y) by {
          assert leq(s[0], s[0]);
        }
      }
    } else {
      InsertSorted(x, s[1..], leq);
      var rest := Insert(x, s[1..], leq);
      forall y | y in rest
        ensures leq(s[0], y)
      {
        assert y in multiset(rest);
        assert y == x || y in s[1..];
      }
    }
  }

  lemma {:induction false} SortBySorted<T(!new)>(s: seq<T>, leq: (T, T) -> bool)
    requires TotalPreorder(leq)
    ensures Sorted(SortBy(s, leq), leq)
  {
    if s != [] {
      SortBySorted(s[1..], leq);
      InsertSorted(s[0], SortBy(s[1..], leq), leq);
    }
  }

  lemma SameHead<T(!new)>(r: seq<T>, s: seq<T>, leq: (T, T) -> bool)
    requires TotalPreorder(leq) && NoTies(r, leq)
    requires Sorted(r, leq) && Sorted(s, leq) && multiset(r) == multiset(s)
    requires r != [] && s != []
    ensures r[0] == s[0]
  {
    SameElements(r, s);
    assert leq(r[0], r[0]) && leq(s[0], s[0]);
    assert r[0] in r && s[0] in s;
    assert r[0] in s && s[0] in r;
    var i :| 0 <= i < |s| && s[i] == r[0];
    var j :| 0 <= j < |r| && r[j] == s[0];
    assert leq(r[0], s[0]) && leq(s[0], r[0]);
  }

  lemma DropSameHead<T>(r: seq<T>, s: seq<T>)
    requires r != [] && s != [] && r[0] == s[0] && multiset(r) == multiset(s)
    ensures multiset(r[1..]) == multiset(s[1..])
  {
    assert r == [r[0]] + r[1..] && s == [s[0]] + s[1..];
    assert multiset(r[1..]) == multiset(r) - multiset{r[0]};
    assert multiset(s[1..]) == multiset(s) - multiset{s[0]};
  }

  /** Where no two elements tie, the sorted arrangement of given elements is unique. */
  lemma {:induction false} SortedUnique<T(!new)>(r: seq<T>, s: seq<T>, leq: (T, T) -> bool)
    requires TotalPreorder(leq) && NoTies(r, leq)
    requires Sorted(r, leq) && Sorted(s, leq) && multiset(r) == multiset(s)
    ensures r == s
  {
    SameElements(r, s);
    if r != [] {
      SameHead(r, s, leq);
      DropSameHead(r, s);
      SortedUnique(r[1..], s[1..], leq);
      assert r == [r[0]] + r[1..] && s == [s[0]] + s[1..];
    }
  }

  /** So the result of sorting does not depend on the order the elements came in. */
  lemma SortOrderIrrelevant<T(!new)>(r: seq<T>, s: seq<T>, leq: (T, T) -> bool)
    requires TotalPreorder(leq) && NoTies(r, leq) && multiset(r) == multiset(s)
    ensures SortBy(r, leq) == SortBy(s, leq)
  {
    SortBySorted(r, leq);
    SortBySorted(s, leq);
    SameElements(SortBy(r, leq), r);
    SortedUnique(SortBy(r, leq), SortBy(s, leq), leq);
  }

  // Sequences without repetition.

  predicate NoRepeats<T(==)>(s: seq<T>) {
    forall i, j :: 0 <= i < j < |s| ==> s[i] != s[j]
  }

  lemma HeadNotInTail<T>(s: seq<T>)
    requires NoRepeats(s) && s != []
    ensures s[0] !in s[1..] && NoRepeats(s[1..])
  {
    forall i | 0 <= i < |s[1..]|
      ensures s[1..][i] != s[0]
    {
      assert s[1..][i] == s[i + 1];
    }
  }

  lemma {:induction false} OccursOnce<T>(s: seq<T>, x: T)
    requires NoRepeats(s)
    ensures multiset(s)[x] == if x in s then 1 else 0
  {
    if s != [] {
      HeadNotInTail(s);
      OccursOnce(s[1..], x);
      assert s == [s[0]] + s[1..];
    }
  }

  /** Without repetition, the members are the whole bag. */
  lemma SameMembersSameBag<T>(r: seq<T>, s: seq<T>)
    requires NoRepeats(r) && NoRepeats(s) && forall x :: x in r <==> x in s
    ensures multiset(r) == multiset(s)
  {
    forall x
      ensures multiset(r)[x] == multiset(s)[x]
    {
      OccursOnce(r, x);
      OccursOnce(s, x);
    }
  }

  lemma OccursTwice<T>(s: seq<T>, i: nat, j: nat)
    requires i < j < |s| && s[i] == s[j]
    ensures multiset(s)[s[i]] >= 2
  {
    assert s == s[..j] + [s[j]] + s[j + 1..];
    assert s[i] in s[..j];
  }

  lemma PermutedNoRepeats<T>(s: seq<T>, r: seq<T>)
    requires NoRepeats(s) && multiset(r) == multiset(s)
    ensures NoRepeats(r)
  {
    forall i, j | 0 <= i < j < |r|
      ensures r[i] != r[j]
    {
      if r[i] == r[j] {
        OccursTwice(r, i, j);
        OccursOnce(s, r[i]);
        assert false;
      }
    }
  }

}
