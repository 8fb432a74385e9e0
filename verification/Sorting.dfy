/** Sorting by a total order, and the fact every deterministic listing in the
    program rests on: the sorted form does not depend on the input order. */
module Sorting {

  /** Total and transitive: elements may tie. */
  ghost predicate Ranking<T(!new)>(leq: (T, T) -> bool) {
    && (forall a, b :: leq(a, b) || leq(b, a))
    && (forall a, b, c :: leq(a, b) && leq(b, c) ==> leq(a, c))
  }

  /** A ranking without ties. */
  ghost predicate TotalOrder<T(!new)>(leq: (T, T) -> bool) {
    && Ranking(leq)
    && (forall a, b :: leq(a, b) && leq(b, a) ==> a == b)
  }

  /** No two different elements of the list tie. */
  ghost predicate NoTies<T>(leq: (T, T) -> bool, xs: seq<T>) {
    forall a, b :: a in xs && b in xs && leq(a, b) && leq(b, a) ==> a == b
  }

  ghost predicate SortedBy<T>(leq: (T, T) -> bool, xs: seq<T>) {
    forall i, j :: 0 <= i < j < |xs| ==> leq(xs[i], xs[j])
  }

  function Insert<T>(leq: (T, T) -> bool, x: T, xs: seq<T>): (r: seq<T>)
    ensures |r| == |xs| + 1
  {
    if xs == [] then [x]
    else if leq(x, xs[0]) then [x] + xs
    else [xs[0]] + Insert(leq, x, xs[1..])
  }

  function Sort<T>(leq: (T, T) -> bool, xs: seq<T>): (r: seq<T>)
    ensures |r| == |xs|
  {
    if xs == [] then [] else Insert(leq, xs[0], Sort(leq, xs[1..]))
  }

  lemma {:induction false} InsertKeepsElements<T>(leq: (T, T) -> bool, x: T, xs: seq<T>)
    ensures multiset(Insert(leq, x, xs)) == multiset(xs) + multiset{x}
  {
    if xs != [] && !leq(x, xs[0]) {
      InsertKeepsElements(leq, x, xs[1..]);
      assert xs == [xs[0]] + xs[1..];
    }
  }

  lemma {:induction false} SortKeepsElements<T>(leq: (T, T) -> bool, xs: seq<T>)
    ensures multiset(Sort(leq, xs)) == multiset(xs)
  {
    if xs != [] {
      SortKeepsElements(leq, xs[1..]);
      InsertKeepsElements(leq, xs[0], Sort(leq, xs[1..]));
      assert xs == [xs[0]] + xs[1..];
    }
  }

  lemma {:induction false} InsertSorts<T(!new)>(leq: (T, T) -> bool, x: T, xs: seq<T>)
    requires Ranking(leq) && SortedBy(leq, xs)
    ensures SortedBy(leq, Insert(leq, x, xs))
  {
    if xs != [] && !leq(x, xs[0]) {
      InsertSorts(leq, x, xs[1..]);
      var tail := Insert(leq, x, xs[1..]);
      forall k | 0 <= k < |tail| ensures leq(xs[0], tail[k]) {
        InsertKeepsElements(leq, x, xs[1..]);
        assert tail[k] in multiset(tail);
      }
    }
  }

  lemma {:induction false} SortSorts<T(!new)>(leq: (T, T) -> bool, xs: seq<T>)
    requires Ranking(leq)
    ensures SortedBy(leq, Sort(leq, xs))
  {
    if xs != [] {
      SortSorts(leq, xs[1..]);
      InsertSorts(leq, xs[0], Sort(leq, xs[1..]));
    }
  }

  /** A list has one least element, wherever it stands. */
  lemma LeastIsUnique<T>(leq: (T, T) -> bool, xs: seq<T>, ys: seq<T>)
    requires NoTies(leq, xs) && SortedBy(leq, xs) && SortedBy(leq, ys)
    requires xs != [] && ys != [] && multiset(xs) == multiset(ys)
    ensures xs[0] == ys[0]
  {
    assert xs[0] in multiset(ys) && ys[0] in multiset(xs);
    var i :| 0 <= i < |ys| && ys[i] == xs[0];
    var j :| 0 <= j < |xs| && xs[j] == ys[0];
  }

  lemma DropHead<T>(xs: seq<T>)
    requires xs != []
    ensures multiset(xs[1..]) == multiset(xs) - multiset{xs[0]}
  {
    assert xs == [xs[0]] + xs[1..];
  }

  /** Two sorted listings of the same elements are the same listing. */
  lemma {:induction false} SortedListingsAgree<T>(leq: (T, T) -> bool, xs: seq<T>, ys: seq<T>)
    requires NoTies(leq, xs) && SortedBy(leq, xs) && SortedBy(leq, ys)
    requires multiset(xs) == multiset(ys)
    ensures xs == ys
  {
    assert |xs| == |multiset(xs)| == |multiset(ys)| == |ys|;
    if xs != [] {
      LeastIsUnique(leq, xs, ys);
      DropHead(xs);
      DropHead(ys);
      SortedListingsAgree(leq, xs[1..], ys[1..]);
      assert xs == [xs[0]] + xs[1..] && ys == [ys[0]] + ys[1..];
    }
  }

  /** The sorted form depends on the elements only. */
  lemma SortIsCanonical<T(!new)>(leq: (T, T) -> bool, xs: seq<T>, ys: seq<T>)
    requires Ranking(leq) && NoTies(leq, xs) && multiset(xs) == multiset(ys)
    ensures Sort(leq, xs) == Sort(leq, ys)
  {
    SortSorts(leq, xs);
    SortSorts(leq, ys);
    SortKeepsElements(leq, xs);
    SortKeepsElements(leq, ys);
    forall x | x in Sort(leq, xs) ensures x in xs {
      assert x in multiset(Sort(leq, xs));
    }
    SortedListingsAgree(leq, Sort(leq, xs), Sort(leq, ys));
  }

  // ------------------------------------------------------------ repetition

  ghost predicate Distinct<T>(xs: seq<T>) { forall i, j :: 0 <= i < j < |xs| ==> xs[i] != xs[j] }

  lemma {:induction false} DistinctCounts<T>(xs: seq<T>)
    ensures Distinct(xs) <==> forall x :: multiset(xs)[x] <= 1
  {
    if xs != [] {
      var head, tail := xs[0], xs[1..];
      assert xs == [head] + tail;
      DistinctCounts(tail);
      if Distinct(xs) {
        assert head !in tail;
        forall x ensures multiset(xs)[x] <= 1 {
          assert multiset(xs)[x] == multiset(tail)[x] + if x == head then 1 else 0;
          assert head !in multiset(tail);
        }
      } else {
        assert exists x :: multiset(xs)[x] > 1 by {
          if Distinct(tail) {
            var j :| 0 < j < |xs| && xs[j] == head;
            assert tail[j - 1] in multiset(tail);
            assert multiset(xs)[head] > 1;
          } else {
            var x :| multiset(tail)[x] > 1;
            assert multiset(xs)[x] >= multiset(tail)[x];
          }
        }
      }
    }
  }

  /** A rearrangement of distinct elements has distinct elements, and the same ones. */
  lemma RearrangementDistinct<T>(xs: seq<T>, ys: seq<T>)
    requires Distinct(xs) && multiset(xs) == multiset(ys)
    ensures Distinct(ys) && forall x :: x in xs <==> x in ys
  {
    DistinctCounts(xs);
    DistinctCounts(ys);
    forall x ensures x in xs <==> x in ys {
      assert x in xs <==> x in multiset(xs);
      assert x in ys <==> x in multiset(ys);
    }
  }
}
