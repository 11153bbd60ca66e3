/**
 Sequence scans and index maps, as used by the compiler, its lookups and the policy engine.
 A Go loop `for _, x := range xs { m[key(x)] = val(x) }` is an IndexBy; what it means is a LastMatch.
 */
module Collections {

  datatype Option<+T> = None | Some(value: T)

  datatype Result<+T, +E> = Ok(value: T) | Err(error: E)

  /** The elements of xs that satisfy keep, in order. */
  function Filter<T(!new)>(xs: seq<T>, keep: T -> bool): (r: seq<T>)
    ensures forall x :: x in r <==> x in xs && keep(x)
  {
    if xs == [] then []
    else
      var n := |xs| - 1;
      assert xs == xs[..n] + [xs[n]];
      Filter(xs[..n], keep) + (if keep(xs[n]) then [xs[n]] else [])
  }

  /** The last element of xs that satisfies p. */
  function LastMatch<T(!new)>(xs: seq<T>, p: T -> bool): (r: Option<T>)
    ensures r.Some? ==> r.value in xs && p(r.value)
    ensures r.None? ==> forall x :: x in xs ==> !p(x)
  {
    if xs == [] then None
    else
      var n := |xs| - 1;
      assert xs == xs[..n] + [xs[n]];
      if p(xs[n]) then Some(xs[n]) else LastMatch(xs[..n], p)
  }

  /** Concatenation of the slices of every key, in key order. */
  function FlatMap<K(!new), T(!new)>(keys: seq<K>, slice: K -> seq<T>): (r: seq<T>)
    ensures forall x :: x in r <==> exists k :: k in keys && x in slice(k)
  {
    if keys == [] then []
    else
      var n := |keys| - 1;
      assert keys == keys[..n] + [keys[n]];
      FlatMap(keys[..n], slice) + slice(keys[n])
  }

  function Map<T, U>(xs: seq<T>, f: T -> U): (r: seq<U>)
    ensures |r| == |xs|
    ensures forall i :: 0 <= i < |xs| ==> r[i] == f(xs[i])
  {
    if xs == [] then [] else [f(xs[0])] + Map(xs[1..], f)
  }

  /** The index that successive map writes leave behind. */
  function IndexBy<T, K, V>(xs: seq<T>, keep: T -> bool, key: T -> K, val: T -> V): map<K, V> {
    if xs == [] then map[]
    else
      var n := |xs| - 1;
      var m := IndexBy(xs[..n], keep, key, val);
      if keep(xs[n]) then m[key(xs[n]) := val(xs[n])] else m
  }

  /** Elements a scan for k would accept. */
  function Matches<T, K(==)>(keep: T -> bool, key: T -> K, k: K): T -> bool {
    (x: T) => keep(x) && key(x) == k
  }

  /** An index answers exactly as a backwards scan of the list it was built from. */
  lemma {:induction false} IndexIsLastMatch<T(!new), K(!new), V>(xs: seq<T>, keep: T -> bool,
                                                                 key: T -> K, val: T -> V, k: K)
    ensures var m := LastMatch(xs, Matches(keep, key, k));
            (k in IndexBy(xs, keep, key, val) <==> m.Some?)
            && (m.Some? ==> IndexBy(xs, keep, key, val)[k] == val(m.value))
  {
    if xs != [] {
      IndexIsLastMatch(xs[..|xs| - 1], keep, key, val, k);
    }
  }

  /** The loop of map writes itself. */
  method BuildIndex<T(!new), K(!new), V>(xs: seq<T>, keep: T -> bool, key: T -> K, val: T -> V) returns (m: map<K, V>)
    ensures m == IndexBy(xs, keep, key, val)
    ensures forall k :: k in m <==> LastMatch(xs, Matches(keep, key, k)).Some?
    ensures forall k :: k in m ==> m[k] == val(LastMatch(xs, Matches(keep, key, k)).value)
  {
    m := map[];
    for i := 0 to |xs|
      invariant m == IndexBy(xs[..i], keep, key, val)
    {
      assert xs[..i + 1][..i] == xs[..i];
      if keep(xs[i]) {
        m := m[key(xs[i]) := val(xs[i])];
      }
    }
    assert xs[..|xs|] == xs;
    forall k
      ensures k in m <==> LastMatch(xs, Matches(keep, key, k)).Some?
      ensures k in m ==> m[k] == val(LastMatch(xs, Matches(keep, key, k)).value)
    {
      IndexIsLastMatch(xs, keep, key, val, k);
    }
  }

  // ----- scans of filtered and concatenated lists

  lemma {:induction false} LastMatchConcat<T(!new)>(a: seq<T>, b: seq<T>, p: T -> bool)
    ensures LastMatch(a + b, p) == if LastMatch(b, p).Some? then LastMatch(b, p) else LastMatch(a, p)
  {
    if b == [] {
      assert a + b == a;
    } else {
      var n := |b| - 1;
      assert (a + b)[..|a| + n] == a + b[..n];
      LastMatchConcat(a, b[..n], p);
    }
  }

  lemma {:induction false} LastMatchFilter<T(!new)>(xs: seq<T>, keep: T -> bool, p: T -> bool)
    requires forall x :: x in xs && p(x) ==> keep(x)
    ensures LastMatch(Filter(xs, keep), p) == LastMatch(xs, p)
  {
    if xs != [] {
      var n := |xs| - 1;
      LastMatchFilter(xs[..n], keep, p);
      LastMatchConcat(Filter(xs[..n], keep), if keep(xs[n]) then [xs[n]] else [], p);
    }
  }

  lemma {:induction false} LastMatchSame<T(!new)>(xs: seq<T>, p: T -> bool, q: T -> bool)
    requires forall x :: x in xs ==> p(x) == q(x)
    ensures LastMatch(xs, p) == LastMatch(xs, q)
  {
    if xs != [] {
      LastMatchSame(xs[..|xs| - 1], p, q);
    }
  }

  /** The element at i is the last match when nothing after it matches. */
  lemma {:induction false} LastMatchAt<T(!new)>(xs: seq<T>, p: T -> bool, i: nat)
    requires i < |xs| && p(xs[i]) && forall j :: i < j < |xs| ==> !p(xs[j])
    ensures LastMatch(xs, p) == Some(xs[i])
  {
    var n := |xs| - 1;
    if i < n {
      LastMatchAt(xs[..n], p, i);
    }
  }

  lemma {:induction false} LastMatchMap<T(!new), U(!new)>(xs: seq<T>, f: T -> U, p: U -> bool, q: T -> bool)
    requires forall x <- xs :: p(f(x)) <==> q(x)
    ensures var last := LastMatch(xs, q);
            LastMatch(Map(xs, f), p) == if last.Some? then Some(f(last.value)) else None
  {
    if xs != [] {
      var n := |xs| - 1;
      assert Map(xs, f)[..n] == Map(xs[..n], f);
      LastMatchMap(xs[..n], f, p, q);
    }
  }

  /** When only the slice of one key can match, scanning all slices is scanning that one. */
  lemma {:induction false} LastMatchFlatMap<K(!new), T(!new)>(keys: seq<K>, slice: K -> seq<T>, o: K, p: T -> bool)
    requires forall k, x :: k in keys && k != o && x in slice(k) ==> !p(x)
    ensures LastMatch(FlatMap(keys, slice), p) == if o in keys then LastMatch(slice(o), p) else None
  {
    if keys != [] {
      var n := |keys| - 1;
      assert keys == keys[..n] + [keys[n]];
      LastMatchFlatMap(keys[..n], slice, o, p);
      LastMatchConcat(FlatMap(keys[..n], slice), slice(keys[n]), p);
    }
  }

  lemma {:induction false} FilterConcat<T(!new)>(a: seq<T>, b: seq<T>, keep: T -> bool)
    ensures Filter(a + b, keep) == Filter(a, keep) + Filter(b, keep)
  {
    if b == [] {
      assert a + b == a;
    } else {
      var n := |b| - 1;
      var last := if keep(b[n]) then [b[n]] else [];
      FilterConcat(a, b[..n], keep);
      assert (a + b)[..|a| + n] == a + b[..n];
      assert Filter(a + b, keep) == Filter(a + b[..n], keep) + last;
      assert Filter(b, keep) == Filter(b[..n], keep) + last;
    }
  }

  lemma {:induction false} FilterMultiset<T(!new)>(xs: seq<T>, keep: T -> bool, x: T)
    ensures multiset(Filter(xs, keep))[x] == if keep(x) then multiset(xs)[x] else 0
  {
    if xs != [] {
      var n := |xs| - 1;
      FilterMultiset(xs[..n], keep, x);
      assert xs == xs[..n] + [xs[n]];
    }
  }

  lemma FilterKeepsMultisets<T(!new)>(a: seq<T>, b: seq<T>, keep: T -> bool)
    requires multiset(a) == multiset(b)
    ensures multiset(Filter(a, keep)) == multiset(Filter(b, keep))
  {
    forall x ensures multiset(Filter(a, keep))[x] == multiset(Filter(b, keep))[x] {
      FilterMultiset(a, keep, x);
      FilterMultiset(b, keep, x);
    }
  }

  lemma ConcatAssociative<T>(a: seq<T>, b: seq<T>, c: seq<T>)
    ensures (a + b) + c == a + (b + c)
  {
  }

  // ----- the first element of the highest positive rank

  function RankOf<T>(x: Option<T>, rank: T -> nat): nat {
    if x.None? then 0 else rank(x.value)
  }

  function FirstMax<T>(xs: seq<T>, rank: T -> nat): Option<T> {
    if xs == [] then None
    else
      var n := |xs| - 1;
      var prev := FirstMax(xs[..n], rank);
      if rank(xs[n]) > RankOf(prev, rank) then Some(xs[n]) else prev
  }

  ghost predicate IsFirstMax<T(!new)>(xs: seq<T>, rank: T -> nat, r: Option<T>) {
    match r
    case None => forall x :: x in xs ==> rank(x) == 0
    case Some(best) =>
      rank(best) > 0
      && exists i :: 0 <= i < |xs| && xs[i] == best
                     && (forall j :: 0 <= j < i ==> rank(xs[j]) < rank(best))
                     && (forall j :: i < j < |xs| ==> rank(xs[j]) <= rank(best))
  }

  lemma NoneAbove<T(!new)>(xs: seq<T>, rank: T -> nat, r: Option<T>, i: nat)
    requires IsFirstMax(xs, rank, r) && i < |xs|
    ensures rank(xs[i]) <= RankOf(r, rank)
  {
    assert xs[i] in xs;
  }

  lemma {:induction false} FirstMaxIsFirstMax<T(!new)>(xs: seq<T>, rank: T -> nat)
    ensures IsFirstMax(xs, rank, FirstMax(xs, rank))
  {
    if xs != [] {
      var n := |xs| - 1;
      FirstMaxIsFirstMax(xs[..n], rank);
      assert xs == xs[..n] + [xs[n]];
      var prev := FirstMax(xs[..n], rank);
      if rank(xs[n]) > RankOf(prev, rank) {
        forall j | 0 <= j < n ensures rank(xs[j]) < rank(xs[n]) {
          NoneAbove(xs[..n], rank, prev, j);
        }
      } else if prev.Some? {
        var i :| 0 <= i < n && xs[..n][i] == prev.value
                 && (forall j :: 0 <= j < i ==> rank(xs[..n][j]) < rank(prev.value))
                 && (forall j :: i < j < n ==> rank(xs[..n][j]) <= rank(prev.value));
        assert xs[i] == prev.value;
        forall j | 0 <= j < i ensures rank(xs[j]) < rank(prev.value) {
          assert xs[j] == xs[..n][j];
        }
        forall j | i < j < |xs| ensures rank(xs[j]) <= rank(prev.value) {
          assert j < n ==> xs[j] == xs[..n][j];
        }
      }
    }
  }

  lemma {:induction false} FirstMaxConcat<T>(a: seq<T>, b: seq<T>, rank: T -> nat)
    ensures var x, y := FirstMax(a, rank), FirstMax(b, rank);
            FirstMax(a + b, rank) == if RankOf(y, rank) > RankOf(x, rank) then y else x
  {
    if b == [] {
      assert a + b == a;
    } else {
      var n := |b| - 1;
      assert (a + b)[..|a| + n] == a + b[..n];
      FirstMaxConcat(a, b[..n], rank);
    }
  }

  ghost predicate IsFirstMaxAt<T(!new)>(xs: seq<T>, rank: T -> nat, i: int) {
    && 0 <= i < |xs|
    && (forall j :: 0 <= j < i ==> rank(xs[j]) < rank(xs[i]))
    && (forall j :: i < j < |xs| ==> rank(xs[j]) <= rank(xs[i]))
  }

  lemma OneFirstMax<T(!new)>(xs: seq<T>, rank: T -> nat, i: int, k: int)
    requires IsFirstMaxAt(xs, rank, i) && IsFirstMaxAt(xs, rank, k)
    ensures i == k
  {
    var x, y := xs[i], xs[k];
  }

  lemma FirstMaxPlace<T(!new)>(xs: seq<T>, rank: T -> nat, best: T) returns (i: int)
    requires IsFirstMax(xs, rank, Some(best))
    ensures IsFirstMaxAt(xs, rank, i) && xs[i] == best
  {
    i :| 0 <= i < |xs| && xs[i] == best
         && (forall j :: 0 <= j < i ==> rank(xs[j]) < rank(best))
         && (forall j :: i < j < |xs| ==> rank(xs[j]) <= rank(best));
  }

  /** There is only one first maximum. */
  lemma FirstMaxIff<T(!new)>(xs: seq<T>, rank: T -> nat, best: T)
    ensures IsFirstMax(xs, rank, Some(best)) <==> FirstMax(xs, rank) == Some(best)
  {
    FirstMaxIsFirstMax(xs, rank);
    if IsFirstMax(xs, rank, Some(best)) {
      var i := FirstMaxPlace(xs, rank, best);
      if FirstMax(xs, rank).Some? {
        var k := FirstMaxPlace(xs, rank, FirstMax(xs, rank).value);
        OneFirstMax(xs, rank, i, k);
      }
    }
  }

  lemma FilteredMaxIsLower<T(!new)>(xs: seq<T>, keep: T -> bool, rank: T -> nat)
    ensures RankOf(FirstMax(Filter(xs, keep), rank), rank) <= RankOf(FirstMax(xs, rank), rank)
  {
    FirstMaxIsFirstMax(xs, rank);
    FirstMaxIsFirstMax(Filter(xs, keep), rank);
    var best := FirstMax(Filter(xs, keep), rank);
    if best.Some? {
      assert best.value in xs;
      var i :| 0 <= i < |xs| && xs[i] == best.value;
      NoneAbove(xs, rank, FirstMax(xs, rank), i);
    }
  }

  lemma {:induction false} KeptMaxStays<T(!new)>(xs: seq<T>, keep: T -> bool, rank: T -> nat)
    requires FirstMax(xs, rank).Some? ==> keep(FirstMax(xs, rank).value)
    ensures FirstMax(Filter(xs, keep), rank) == FirstMax(xs, rank)
  {
    if xs != [] {
      var n := |xs| - 1;
      FilteredMaxIsLower(xs[..n], keep, rank);
      if rank(xs[n]) <= RankOf(FirstMax(xs[..n], rank), rank) {
        KeptMaxStays(xs[..n], keep, rank);
      }
      var last := if keep(xs[n]) then [xs[n]] else [];
      FirstMaxConcat(Filter(xs[..n], keep), last, rank);
      assert last == [] || last[..0] == [];
    }
  }

  /** Dropping elements keeps the first maximum exactly when it is not dropped. */
  lemma FirstMaxFilterIff<T(!new)>(xs: seq<T>, keep: T -> bool, rank: T -> nat)
    ensures FirstMax(Filter(xs, keep), rank) == FirstMax(xs, rank) <==>
            var best := FirstMax(xs, rank); best.Some? ==> keep(best.value)
  {
    if FirstMax(xs, rank).Some? && !keep(FirstMax(xs, rank).value) {
      FirstMaxIsFirstMax(Filter(xs, keep), rank);
    } else {
      KeptMaxStays(xs, keep, rank);
    }
  }
}
