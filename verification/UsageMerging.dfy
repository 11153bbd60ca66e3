/**
 Merging the usage summaries of a home gateway and its regions: buckets are added up and sorted. The comparison of
 merged buckets is partial, since it reads the fifth byte of a name without asking how long that name is.
 */
module UsageMerging {
  import opened Collections
  import opened Strings
  import opened Usage

  // ----- adding buckets up

  function Combined(cur: Bucket, b: Bucket): Bucket {
    cur.(requests := cur.requests + b.requests, cost := cur.cost + b.cost,
         promptTokens := cur.promptTokens + b.promptTokens,
         completionTokens := cur.completionTokens + b.completionTokens,
         metrics := AddAmounts(cur.metrics, b.metrics),
         labelText := if cur.labelText == "" then b.labelText else cur.labelText)
  }

  function Absorbed(acc: map<string, Bucket>, b: Bucket): map<string, Bucket> {
    acc[b.bucket := if b.bucket in acc then Combined(acc[b.bucket], b) else b]
  }

  function AbsorbedAll(acc: map<string, Bucket>, l: seq<Bucket>): map<string, Bucket> {
    if l == [] then acc else Absorbed(AbsorbedAll(acc, l[..|l| - 1]), l[|l| - 1])
  }

  /** Bucket-wise sums of two summaries. */
  function MergedMaps(a: map<string, Bucket>, b: map<string, Bucket>): map<string, Bucket> {
    map k | k in a.Keys + b.Keys ::
      if k !in a then b[k] else if k !in b then a[k] else Combined(a[k], b[k])
  }

  /** Bucket names in order of their first appearance. */
  function Arrivals(l: seq<Bucket>): (order: seq<string>)
    ensures forall x, y :: 0 <= x < y < |order| ==> order[x] != order[y]
  {
    if l == [] then []
    else
      var rest, k := Arrivals(l[..|l| - 1]), l[|l| - 1].bucket;
      if k in rest then rest else rest + [k]
  }

  /** The accumulated buckets in the given order. */
  function Listed(order: seq<string>, acc: map<string, Bucket>): seq<Bucket> {
    if order == [] then []
    else
      var rest, k := Listed(order[..|order| - 1], acc), order[|order| - 1];
      if k in acc then rest + [acc[k]] else rest
  }

  /** The merged buckets before they are sorted. */
  function MergedList(local: seq<Bucket>, remote: seq<Bucket>): seq<Bucket> {
    Listed(Arrivals(local + remote), AbsorbedAll(map[], local + remote))
  }

  function Restricted(acc: map<string, Bucket>, order: seq<string>): map<string, Bucket> {
    map k | k in order && k in acc :: acc[k]
  }

  lemma RestrictedGrows(acc: map<string, Bucket>, order: seq<string>, k: string)
    requires k in acc
    ensures Restricted(acc, order + [k]) == Restricted(acc, order)[k := acc[k]]
  {
  }

  lemma {:induction false} ListedIsListing(order: seq<string>, acc: map<string, Bucket>)
    requires forall k <- acc :: acc[k].bucket == k
    requires forall k <- order :: k in acc
    requires forall x, y :: 0 <= x < y < |order| ==> order[x] != order[y]
    ensures IsListing(Listed(order, acc), Restricted(acc, order))
  {
    if order != [] {
      var rest, k := order[..|order| - 1], order[|order| - 1];
      assert order == rest + [k];
      ListedIsListing(rest, acc);
      RestrictedGrows(acc, rest, k);
      ListingGrows(Listed(rest, acc), Restricted(acc, rest), acc[k]);
    }
  }

  lemma {:induction false} ArrivalsAreAbsorbed(l: seq<Bucket>)
    ensures forall k :: k in Arrivals(l) <==> k in AbsorbedAll(map[], l)
    ensures forall k <- AbsorbedAll(map[], l) :: AbsorbedAll(map[], l)[k].bucket == k
  {
    if l != [] {
      ArrivalsAreAbsorbed(l[..|l| - 1]);
    }
  }

  /** The merged list holds each accumulated bucket once. */
  lemma MergedListIsListing(local: seq<Bucket>, remote: seq<Bucket>)
    ensures IsListing(MergedList(local, remote), AbsorbedAll(AbsorbedAll(map[], local), remote))
  {
    var all := local + remote;
    ArrivalsAreAbsorbed(all);
    ListedIsListing(Arrivals(all), AbsorbedAll(map[], all));
    assert Restricted(AbsorbedAll(map[], all), Arrivals(all)) == AbsorbedAll(map[], all);
    AbsorbedConcat(map[], local, remote);
  }

  lemma {:induction false} AbsorbedConcat(acc: map<string, Bucket>, a: seq<Bucket>, b: seq<Bucket>)
    ensures AbsorbedAll(acc, a + b) == AbsorbedAll(AbsorbedAll(acc, a), b)
  {
    if b == [] {
      assert a + b == a;
    } else {
      assert (a + b)[..|a + b| - 1] == a + b[..|b| - 1];
      AbsorbedConcat(acc, a, b[..|b| - 1]);
    }
  }

  lemma {:induction false} AbsorbedListing(acc: map<string, Bucket>, l: seq<Bucket>, m: map<string, Bucket>)
    requires IsListing(l, m)
    ensures AbsorbedAll(acc, l) == MergedMaps(acc, m)
    decreases l
  {
    if l == [] {
      EmptyListing(m);
    } else {
      var x := l[|l| - 1];
      ListingShrinks(l, m);
      AbsorbedListing(acc, l[..|l| - 1], m - {x.bucket});
    }
  }

  lemma AddAmountsAssociative(a: map<string, real>, b: map<string, real>, c: map<string, real>)
    ensures AddAmounts(AddAmounts(a, b), c) == AddAmounts(a, AddAmounts(b, c))
  {
    var l, r := AddAmounts(AddAmounts(a, b), c), AddAmounts(a, AddAmounts(b, c));
    assert l.Keys == r.Keys;
    forall k | k in l ensures l[k] == r[k] {
      AmountOfSum(a, b, k);
      AmountOfSum(b, c, k);
    }
  }

  lemma CombinedCounting(x: Bucket, y: Bucket, e: Record)
    ensures Combined(x, Counting(y, e)) == Counting(Combined(x, y), e)
  {
    AddAmountsAssociative(x.metrics, y.metrics, Numeric(e.metrics));
  }

  lemma CombinedOpened(x: Bucket, e: Record, key: (string, string))
    requires x.labelText == "" ==> key.1 == ""
    ensures Combined(x, Counting(OpenedBy(e, key), e)) == Counting(x, e)
  {
    assert AddAmounts(map[], Numeric(e.metrics)) == Numeric(e.metrics);
  }

  /** Summing commutes with counting one more record. */
  lemma MergedStep(a: map<string, Bucket>, b: map<string, Bucket>, day: Calendar, groupBy: string, e: Record)
    requires forall k <- a :: a[k].bucket == k && (a[k].labelText == "" <==> k == "")
    ensures Accumulated(MergedMaps(a, b), day, groupBy, e) == MergedMaps(a, Accumulated(b, day, groupBy, e))
  {
    var key := BucketKey(day, groupBy, e);
    if key.0 !in a {
    } else if key.0 in b {
      CombinedCounting(a[key.0], b[key.0], e);
    } else {
      CombinedOpened(a[key.0], e, key);
    }
    UpdatedMerge(a, b, key.0, Accumulated(b, day, groupBy, e)[key.0]);
  }

  lemma UpdatedMerge(a: map<string, Bucket>, b: map<string, Bucket>, k: string, x: Bucket)
    ensures MergedMaps(a, b[k := x]) == MergedMaps(a, b)[k := if k in a then Combined(a[k], x) else x]
  {
  }

  /** Summarizing is a homomorphism: records may be summed where they are and the sums merged. */
  lemma {:induction false} SummaryOfUnion(day: Calendar, groupBy: string, a: seq<Record>, b: seq<Record>)
    ensures Summary(day, groupBy, a + b) == MergedMaps(Summary(day, groupBy, a), Summary(day, groupBy, b))
  {
    if b == [] {
      assert a + b == a;
    } else {
      var rest := b[..|b| - 1];
      assert (a + b)[..|a + b| - 1] == a + rest;
      SummaryOfUnion(day, groupBy, a, rest);
      SummaryIsKeyed(day, groupBy, a);
      MergedStep(Summary(day, groupBy, a), Summary(day, groupBy, rest), day, groupBy, b[|b| - 1]);
    }
  }

  lemma AbsorbedListings(local: seq<Bucket>, a: map<string, Bucket>, remote: seq<Bucket>, b: map<string, Bucket>)
    requires IsListing(local, a) && IsListing(remote, b)
    ensures AbsorbedAll(AbsorbedAll(map[], local), remote) == MergedMaps(a, b)
  {
    AbsorbedListing(map[], local, a);
    assert MergedMaps(map[], a) == a;
    AbsorbedListing(a, remote, b);
  }

  // ----- the comparison and the sort

  /** The comparison takes such names for days. */
  predicate IsDayShaped(name: string) {
    |name| == 10 && name[4] == '-'
  }

  /** Comparing a with b is defined: b is long enough for what the comparison reads. */
  predicate CompareDefined(a: string, b: string) {
    IsDayShaped(a) ==> |b| > 4
  }

  predicate AllComparable(names: set<string>) {
    forall a, b :: a in names && b in names ==> CompareDefined(a, b)
  }

  /** Days in order; otherwise busier buckets first, then by name. */
  predicate MergedBefore(a: Bucket, b: Bucket)
    requires CompareDefined(a.bucket, b.bucket)
  {
    if IsDayShaped(a.bucket) && b.bucket[4] == '-' then Less(a.bucket, b.bucket)
    else if a.requests != b.requests then a.requests > b.requests
    else Less(a.bucket, b.bucket)
  }

  /** Where it is defined it is no order: two names can each come before the other. */
  lemma ComparisonIsNoOrder(x: Bucket, y: Bucket)
    requires IsDayShaped(x.bucket) && |y.bucket| > 4 && |y.bucket| != 10 && y.bucket[4] == '-'
    requires Less(x.bucket, y.bucket) && y.requests > x.requests
    ensures MergedBefore(x, y) && MergedBefore(y, x)
  {
  }

  /** A sort of a slice: which pairs of elements it compares, in which direction, and what it leaves. */
  datatype SortRun = SortRun(compared: set<(Bucket, Bucket)>, result: seq<Bucket>)

  type SliceSort = seq<Bucket> -> SortRun

  /** It compares elements and rearranges them; of two elements it compares the second with the first. */
  ghost predicate IsSliceSort(sort: SliceSort) {
    forall l :: multiset(sort(l).result) == multiset(l) &&
                (forall p <- sort(l).compared :: p.0 in l && p.1 in l) &&
                (|l| == 2 ==> (l[1], l[0]) in sort(l).compared)
  }

  /** The sorted list, or None when a comparison reads past the end of a name, which panics. */
  function SortedOrPanic(sort: SliceSort, l: seq<Bucket>): Option<seq<Bucket>> {
    var run := sort(l);
    if forall p <- run.compared :: CompareDefined(p.0.bucket, p.1.bucket) then Some(run.result) else None
  }

  method ListInOrder(order: seq<string>, acc: map<string, Bucket>) returns (list: seq<Bucket>)
    requires forall k <- order :: k in acc
    ensures list == Listed(order, acc)
  {
    list := [];
    for i := 0 to |order|
      invariant list == Listed(order[..i], acc)
    {
      assert order[..i + 1][..i] == order[..i] && order[i] in order;
      list := list + [acc[order[i]]];
    }
    assert order[..|order|] == order;
  }

  method MergeUsageSummary(local: seq<Bucket>, remote: seq<Bucket>, sort: SliceSort) returns (out: Option<seq<Bucket>>)
    ensures out == SortedOrPanic(sort, MergedList(local, remote))
  {
    var acc: map<string, Bucket> := map[];
    var order: seq<string> := [];
    var all := local + remote;
    for i := 0 to |all|
      invariant acc == AbsorbedAll(map[], all[..i]) && order == Arrivals(all[..i])
      invariant forall k :: k in order <==> k in acc
    {
      assert all[..i + 1][..i] == all[..i];
      var b := all[i];
      if b.bucket !in acc {
        order := order + [b.bucket];
      }
      acc := Absorbed(acc, b);
    }
    assert all[..|all|] == all;
    var list := ListInOrder(order, acc);
    out := SortedOrPanic(sort, list);
  }

  // ----- when there is a report, and what it holds

  function NamesOf(l: seq<Bucket>): set<string> {
    set b | b in l :: b.bucket
  }

  /** Compares everything with everything; no sort compares more. */
  function ThoroughSort(): SliceSort {
    (l: seq<Bucket>) => SortRun(set a, b | a in l && b in l :: (a, b), l)
  }

  lemma ComparableSorts(sort: SliceSort, l: seq<Bucket>)
    requires IsSliceSort(sort) && AllComparable(NamesOf(l))
    ensures SortedOrPanic(sort, l).Some?
  {
    forall p <- sort(l).compared ensures CompareDefined(p.0.bucket, p.1.bucket) {
      assert p.0 in l && p.1 in l;
      assert p.0.bucket in NamesOf(l) && p.1.bucket in NamesOf(l);
    }
  }

  lemma ThoroughIsSliceSort()
    ensures IsSliceSort(ThoroughSort())
  {
  }

  lemma ThoroughSortsIff(l: seq<Bucket>)
    requires SortedOrPanic(ThoroughSort(), l).Some?
    ensures AllComparable(NamesOf(l))
  {
    forall a, b | a in NamesOf(l) && b in NamesOf(l) ensures CompareDefined(a, b) {
      var x :| x in l && x.bucket == a;
      var y :| y in l && y.bucket == b;
      assert (x, y) in ThoroughSort()(l).compared;
    }
  }

  /** Every sort gets through exactly when all names are comparable with each other. */
  lemma SortsIff(l: seq<Bucket>)
    ensures (forall sort :: IsSliceSort(sort) ==> SortedOrPanic(sort, l).Some?) <==> AllComparable(NamesOf(l))
  {
    if AllComparable(NamesOf(l)) {
      forall sort | IsSliceSort(sort) ensures SortedOrPanic(sort, l).Some? {
        ComparableSorts(sort, l);
      }
    }
    if forall sort :: IsSliceSort(sort) ==> SortedOrPanic(sort, l).Some? {
      ThoroughIsSliceSort();
      ThoroughSortsIff(l);
    }
  }

  /** That is: when no name of ten bytes with '-' as its fifth meets one of at most four. */
  lemma ComparableMeans(names: set<string>)
    ensures AllComparable(names) <==>
            !exists a, b :: a in names && b in names && |a| == 10 && a[4] == '-' && |b| <= 4
  {
  }

  /** The names of a listing are the keys it lists. */
  lemma ListingNames(l: seq<Bucket>, m: map<string, Bucket>)
    requires IsListing(l, m)
    ensures NamesOf(l) == m.Keys
  {
    forall k ensures k in NamesOf(l) <==> k in m.Keys {
      if k in m {
        assert m[k] in multiset(l);
      }
      if b :| b in l && b.bucket == k {
        assert b in multiset(l);
      }
    }
  }

  /**
   Merging two reports gives the report of all records, bucket by bucket, labels and owners included, whenever it gives
   one; and it does for every sort exactly when the bucket names of all records are comparable.
   */
  lemma MergedReportIsReportOfAll(day: Calendar, groupBy: string, a: seq<Record>, b: seq<Record>,
                                  local: seq<Bucket>, remote: seq<Bucket>)
    requires IsListing(local, Summary(day, groupBy, a)) && IsListing(remote, Summary(day, groupBy, b))
    ensures forall sort :: IsSliceSort(sort) && SortedOrPanic(sort, MergedList(local, remote)).Some? ==>
              IsListing(SortedOrPanic(sort, MergedList(local, remote)).value, Summary(day, groupBy, a + b))
    ensures (forall sort :: IsSliceSort(sort) ==> SortedOrPanic(sort, MergedList(local, remote)).Some?) <==>
            AllComparable(Summary(day, groupBy, a + b).Keys)
  {
    var l := MergedList(local, remote);
    MergedListIsListing(local, remote);
    AbsorbedListings(local, Summary(day, groupBy, a), remote, Summary(day, groupBy, b));
    SummaryOfUnion(day, groupBy, a, b);
    ListingNames(l, Summary(day, groupBy, a + b));
    SortsIff(l);
  }

  /** Two buckets are enough for no report: a short name at home, one shaped like a day in the region. */
  lemma MergeOfTwoPanics(sort: SliceSort, x: Bucket, y: Bucket)
    requires IsSliceSort(sort) && |x.bucket| <= 4 && IsDayShaped(y.bucket)
    ensures SortedOrPanic(sort, MergedList([x], [y])).None?
  {
    MergedPair(x, y);
    PairPanics(sort, x, y);
  }

  /** Models are named like that. */
  lemma MergeCanPanic(sort: SliceSort, x: Bucket, y: Bucket)
    requires IsSliceSort(sort) && x.bucket == "o1" && y.bucket == "qwen-turbo"
    ensures SortedOrPanic(sort, MergedList([x], [y])).None?
  {
    MergeOfTwoPanics(sort, x, y);
  }

  lemma PairPanics(sort: SliceSort, x: Bucket, y: Bucket)
    requires IsSliceSort(sort) && IsDayShaped(y.bucket) && |x.bucket| <= 4
    ensures SortedOrPanic(sort, [x, y]).None?
  {
    var l := [x, y];
    assert (l[1], l[0]) in sort(l).compared;
    assert !CompareDefined(y.bucket, x.bucket);
  }

  lemma MergedPair(x: Bucket, y: Bucket)
    requires x.bucket != y.bucket
    ensures MergedList([x], [y]) == [x, y]
  {
    var k, j := x.bucket, y.bucket;
    assert [x] + [y] == [x, y] && [x, y][..1] == [x] && [x][..0] == [];
    assert AbsorbedAll(map[], [x]) == map[k := x] && AbsorbedAll(map[], [x, y]) == map[k := x, j := y];
    assert Arrivals([x]) == [k] && Arrivals([x, y]) == [k, j];
    assert [k, j][..1] == [k] && [k][..0] == [];
    assert Listed([k], map[k := x, j := y]) == [x];
  }

  const MODALITIES := ["chat", "messages", "generate_content", "tts", "stt", "embedding", "image", "mcp", "a2a"]

  /** Groupings whose names are always comparable: days, known modalities, byok, and generated key ids. */
  predicate NamesAreRegular(day: Calendar, groupBy: string, e: Record) {
    if groupBy == "model" then false
    else if groupBy == "key" then |e.apiKeyId| != 10
    else if groupBy == "modality" then e.modality == "" || e.modality in MODALITIES
    else if groupBy == "byok" then true
    else |day(e.createdAt)| >= 10
  }

  lemma RegularName(day: Calendar, groupBy: string, e: Record)
    requires NamesAreRegular(day, groupBy, e)
    ensures var k := BucketKey(day, groupBy, e).0;
            if groupBy in {"key", "modality", "byok"} then !IsDayShaped(k) else |k| >= 10
  {
  }

  lemma RegularGroupingsAreComparable(day: Calendar, groupBy: string, es: seq<Record>)
    requires forall e <- es :: NamesAreRegular(day, groupBy, e)
    ensures AllComparable(Summary(day, groupBy, es).Keys)
  {
    forall a, b | a in Summary(day, groupBy, es) && b in Summary(day, groupBy, es) ensures CompareDefined(a, b) {
      SummaryKeys(day, groupBy, es, a);
      SummaryKeys(day, groupBy, es, b);
      var x :| x in es && BucketKey(day, groupBy, x).0 == a;
      var y :| y in es && BucketKey(day, groupBy, y).0 == b;
      RegularName(day, groupBy, x);
      RegularName(day, groupBy, y);
    }
  }
}
