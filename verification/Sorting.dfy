/**
 Sorting by a "less" comparison, as sort.SliceStable promises it: an ordered rearrangement in which elements of equal
 rank keep their order. There is exactly one, so the insertion sort here stands for any of them.
 */
module Sorting {
  import opened Collections

  /** A strict weak order: elements neither before nor after one another are of one rank. */
  ghost predicate IsOrder<T(!new)>(less: (T, T) -> bool) {
    (forall x, y :: less(x, y) ==> !less(y, x)) &&
    (forall x, y, z :: less(x, y) && !less(z, y) ==> less(x, z))
  }

  function SameRankAs<T>(less: (T, T) -> bool, x: T): T -> bool {
    (y: T) => !less(x, y) && !less(y, x)
  }

  predicate Ordered<T>(less: (T, T) -> bool, xs: seq<T>) {
    forall i, j :: 0 <= i < j < |xs| ==> !less(xs[j], xs[i])
  }

  function Insert<T>(less: (T, T) -> bool, x: T, xs: seq<T>): seq<T> {
    if xs == [] || !less(x, xs[|xs| - 1]) then xs + [x]
    else Insert(less, x, xs[..|xs| - 1]) + [xs[|xs| - 1]]
  }

  function StableSort<T>(less: (T, T) -> bool, xs: seq<T>): seq<T> {
    if xs == [] then [] else Insert(less, xs[|xs| - 1], StableSort(less, xs[..|xs| - 1]))
  }

  lemma OrderLaws<T(!new)>(less: (T, T) -> bool, x: T, y: T, z: T)
    requires IsOrder(less)
    ensures less(x, y) ==> !less(y, x)
    ensures less(x, y) && !less(z, y) ==> less(x, z)
    ensures !less(y, x) && less(y, z) ==> less(x, z)
  {
  }

  // ----- ordered, and a permutation

  lemma {:induction false} InsertPermutes<T(!new)>(less: (T, T) -> bool, x: T, xs: seq<T>)
    ensures multiset(Insert(less, x, xs)) == multiset(xs) + multiset{x}
  {
    if xs != [] && less(x, xs[|xs| - 1]) {
      assert xs == xs[..|xs| - 1] + [xs[|xs| - 1]];
      InsertPermutes(less, x, xs[..|xs| - 1]);
    }
  }

  /** Everything that is inserted into the front part stays before its last element. */
  lemma InsertedStaysBefore<T(!new)>(less: (T, T) -> bool, x: T, rest: seq<T>, last: T, y: T)
    requires IsOrder(less) && Ordered(less, rest + [last]) && less(x, last) && y in Insert(less, x, rest)
    ensures !less(last, y)
  {
    InsertPermutes(less, x, rest);
    assert y in multiset(Insert(less, x, rest));
    OrderLaws(less, x, last, last);
    if y != x {
      assert y in rest;
      var i :| 0 <= i < |rest| && rest[i] == y;
      assert (rest + [last])[i] == y && (rest + [last])[|rest|] == last;
    }
  }

  lemma {:induction false} InsertKeepsOrder<T(!new)>(less: (T, T) -> bool, x: T, xs: seq<T>)
    requires IsOrder(less) && Ordered(less, xs)
    ensures Ordered(less, Insert(less, x, xs))
  {
    if xs != [] {
      var rest, last := xs[..|xs| - 1], xs[|xs| - 1];
      assert xs == rest + [last];
      if less(x, last) {
        InsertKeepsOrder(less, x, rest);
        var r := Insert(less, x, rest);
        forall i | 0 <= i < |r| ensures !less(last, r[i]) {
          InsertedStaysBefore(less, x, rest, last, r[i]);
        }
      } else {
        forall i | 0 <= i < |xs| ensures !less(x, xs[i]) {
          OrderLaws(less, x, xs[i], last);
        }
      }
    }
  }

  // ----- stable

  lemma FilterOne<T(!new)>(x: T, keep: T -> bool)
    ensures Filter([x], keep) == if keep(x) then [x] else []
  {
    assert [x][..0] == [];
  }

  lemma Swapped<T>(a: seq<T>, x: seq<T>, y: seq<T>)
    requires x == [] || y == []
    ensures (a + x) + y == (a + y) + x
  {
  }

  lemma RanksDiffer<T(!new)>(less: (T, T) -> bool, x: T, last: T, q: T)
    requires IsOrder(less) && less(x, last)
    ensures Filter([x], SameRankAs(less, q)) == [] || Filter([last], SameRankAs(less, q)) == []
  {
    OrderLaws(less, x, last, q);
    FilterOne(x, SameRankAs(less, q));
    FilterOne(last, SameRankAs(less, q));
  }

  lemma InsertedBefore<T(!new)>(less: (T, T) -> bool, inserted: seq<T>, rest: seq<T>, x: T, last: T, q: T)
    requires IsOrder(less) && less(x, last)
    requires Filter(inserted, SameRankAs(less, q)) ==
             Filter(rest, SameRankAs(less, q)) + Filter([x], SameRankAs(less, q))
    ensures Filter(inserted + [last], SameRankAs(less, q)) ==
            Filter(rest + [last], SameRankAs(less, q)) + Filter([x], SameRankAs(less, q))
  {
    var keep := SameRankAs(less, q);
    FilterConcat(inserted, [last], keep);
    FilterConcat(rest, [last], keep);
    RanksDiffer(less, x, last, q);
    Swapped(Filter(rest, keep), Filter([x], keep), Filter([last], keep));
  }

  /** Inserting puts an element behind those of its rank and leaves other ranks alone. */
  lemma {:induction false} InsertIsStable<T(!new)>(less: (T, T) -> bool, x: T, xs: seq<T>, q: T)
    requires IsOrder(less)
    ensures Filter(Insert(less, x, xs), SameRankAs(less, q)) ==
            Filter(xs, SameRankAs(less, q)) + Filter([x], SameRankAs(less, q))
  {
    if xs == [] || !less(x, xs[|xs| - 1]) {
      FilterConcat(xs, [x], SameRankAs(less, q));
    } else {
      var rest, last := xs[..|xs| - 1], xs[|xs| - 1];
      InsertIsStable(less, x, rest, q);
      assert xs == rest + [last];
      InsertedBefore(less, Insert(less, x, rest), rest, x, last, q);
    }
  }

  /** The sort is a stable sort: ordered, a permutation, and equal ranks keep their order. */
  lemma {:induction false} StableSortSorts<T(!new)>(less: (T, T) -> bool, xs: seq<T>)
    requires IsOrder(less)
    ensures Ordered(less, StableSort(less, xs)) && multiset(StableSort(less, xs)) == multiset(xs)
    ensures forall q :: Filter(StableSort(less, xs), SameRankAs(less, q)) == Filter(xs, SameRankAs(less, q))
  {
    if xs != [] {
      var rest, last := xs[..|xs| - 1], xs[|xs| - 1];
      assert xs == rest + [last];
      StableSortSorts(less, rest);
      InsertKeepsOrder(less, last, StableSort(less, rest));
      InsertPermutes(less, last, StableSort(less, rest));
      forall q ensures Filter(StableSort(less, xs), SameRankAs(less, q)) == Filter(xs, SameRankAs(less, q)) {
        InsertIsStable(less, last, StableSort(less, rest), q);
        FilterConcat(rest, [last], SameRankAs(less, q));
      }
    }
  }

  // ----- and there is only one

  lemma FilterHead<T(!new)>(xs: seq<T>, keep: T -> bool)
    requires xs != []
    ensures Filter(xs, keep) == (if keep(xs[0]) then [xs[0]] else []) + Filter(xs[1..], keep)
  {
    assert xs == [xs[0]] + xs[1..];
    FilterConcat([xs[0]], xs[1..], keep);
    FilterOne(xs[0], keep);
  }

  lemma HeadIsFirst<T(!new)>(less: (T, T) -> bool, a: seq<T>, b: seq<T>)
    requires IsOrder(less) && Ordered(less, a) && a != [] && b != []
    requires Filter(a, SameRankAs(less, b[0])) == Filter(b, SameRankAs(less, b[0]))
    ensures !less(b[0], a[0])
  {
    OrderLaws(less, b[0], b[0], b[0]);
    assert b[0] in Filter(b, SameRankAs(less, b[0]));
    assert b[0] in a;
  }

  lemma FirstOfRank<T(!new)>(less: (T, T) -> bool, a: seq<T>, x: T)
    requires a != [] && SameRankAs(less, x)(a[0])
    ensures Filter(a, SameRankAs(less, x)) != [] && Filter(a, SameRankAs(less, x))[0] == a[0]
  {
    FilterHead(a, SameRankAs(less, x));
  }

  lemma TailFilter<T(!new)>(a: seq<T>, b: seq<T>, keep: T -> bool)
    requires a != [] && b != [] && a[0] == b[0] && Filter(a, keep) == Filter(b, keep)
    ensures Filter(a[1..], keep) == Filter(b[1..], keep)
  {
    FilterHead(a, keep);
    FilterHead(b, keep);
    var head := if keep(a[0]) then [a[0]] else [];
    assert (head + Filter(a[1..], keep))[|head|..] == Filter(a[1..], keep);
    assert (head + Filter(b[1..], keep))[|head|..] == Filter(b[1..], keep);
  }

  lemma {:induction false} StableOrderIsUnique<T(!new)>(less: (T, T) -> bool, a: seq<T>, b: seq<T>)
    requires IsOrder(less) && Ordered(less, a) && Ordered(less, b)
    requires forall q :: Filter(a, SameRankAs(less, q)) == Filter(b, SameRankAs(less, q))
    ensures a == b
  {
    if a == [] && b == [] {
    } else if a == [] {
      OrderLaws(less, b[0], b[0], b[0]);
      FirstOfRank(less, b, b[0]);
    } else if b == [] {
      OrderLaws(less, a[0], a[0], a[0]);
      FirstOfRank(less, a, a[0]);
    } else {
      HeadIsFirst(less, a, b);
      HeadIsFirst(less, b, a);
      OrderLaws(less, a[0], a[0], a[0]);
      FirstOfRank(less, a, a[0]);
      FirstOfRank(less, b, a[0]);
      forall q ensures Filter(a[1..], SameRankAs(less, q)) == Filter(b[1..], SameRankAs(less, q)) {
        TailFilter(a, b, SameRankAs(less, q));
      }
      StableOrderIsUnique(less, a[1..], b[1..]);
    }
  }

  /** Any stable sort gives what StableSort gives. */
  lemma StableSortIsUnique<T(!new)>(less: (T, T) -> bool, xs: seq<T>, sorted: seq<T>)
    requires IsOrder(less) && Ordered(less, sorted)
    requires forall q :: Filter(sorted, SameRankAs(less, q)) == Filter(xs, SameRankAs(less, q))
    ensures sorted == StableSort(less, xs)
  {
    StableSortSorts(less, xs);
    StableOrderIsUnique(less, sorted, StableSort(less, xs));
  }

  // ----- independence of the order the elements are given in

  predicate RanksAreDistinct<T>(less: (T, T) -> bool, xs: seq<T>) {
    forall i, j :: 0 <= i < j < |xs| ==> less(xs[i], xs[j]) || less(xs[j], xs[i])
  }

  lemma {:induction false} AtMostOneOfARank<T(!new)>(less: (T, T) -> bool, xs: seq<T>, q: T)
    requires IsOrder(less) && RanksAreDistinct(less, xs)
    ensures |Filter(xs, SameRankAs(less, q))| <= 1
  {
    if xs != [] {
      var rest, last := xs[..|xs| - 1], xs[|xs| - 1];
      AtMostOneOfARank(less, rest, q);
      if Filter(rest, SameRankAs(less, q)) != [] {
        var p := Filter(rest, SameRankAs(less, q))[0];
        assert p in rest && SameRankAs(less, q)(p);
        assert less(p, last) || less(last, p);
        OrderLaws(less, p, last, q);
        OrderLaws(less, last, p, q);
      }
    }
  }

  lemma SameMembers<T>(f: seq<T>, g: seq<T>)
    requires |f| <= 1 && multiset(f) == multiset(g)
    ensures f == g
  {
    assert |g| == |multiset(g)| == |multiset(f)| == |f|;
    if f != [] {
      assert f[0] in multiset(g);
    }
  }

  lemma SortIgnoresListOrder<T(!new)>(less: (T, T) -> bool, a: seq<T>, b: seq<T>)
    requires IsOrder(less) && multiset(a) == multiset(b) && RanksAreDistinct(less, a)
    ensures StableSort(less, a) == StableSort(less, b)
  {
    StableSortSorts(less, a);
    StableSortSorts(less, b);
    forall q
      ensures Filter(StableSort(less, a), SameRankAs(less, q)) == Filter(StableSort(less, b), SameRankAs(less, q))
    {
      AtMostOneOfARank(less, a, q);
      FilterKeepsMultisets(a, b, SameRankAs(less, q));
      SameMembers(Filter(a, SameRankAs(less, q)), Filter(b, SameRankAs(less, q)));
    }
    StableOrderIsUnique(less, StableSort(less, a), StableSort(less, b));
  }
}
