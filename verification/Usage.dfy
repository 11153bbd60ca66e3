/**
 Usage reports of a home gateway and its regions: usage records are summed up per bucket, and the newest records of
 both sides are merged. Costs and metrics are reals; a nil metrics map is an empty one; strings are their bytes.
 */
module Usage {
  import opened Collections
  import opened Sorting
  import opened Strings

  datatype Metric = MetricFloat(value: real) | MetricInt(count: int) | MetricOther

  datatype Record = Record(createdAt: int, model: string, apiKeyId: string, keyName: string, keyKind: string,
                           ownerEmail: string, ownerName: string, modality: string, usedByok: bool,
                           promptTokens: int, completionTokens: int, cost: Option<real>, metrics: map<string, Metric>)

  datatype Bucket = Bucket(bucket: string, labelText: string, requests: int, cost: real, promptTokens: int,
                           completionTokens: int, metrics: map<string, real>, keyKind: string, ownerEmail: string,
                           ownerName: string)

  /** The UTC calendar day of an instant. */
  type Calendar = int -> string

  // ----- newest first, cut to a limit

  function NewerThan(): (Record, Record) -> bool {
    (a: Record, b: Record) => a.createdAt > b.createdAt
  }

  function EffectiveLimit(limit: int): nat {
    if limit <= 0 then 50 else limit
  }

  function Min(a: nat, b: nat): nat {
    if a <= b then a else b
  }

  /** out is some newest-first arrangement of all, cut to k. */
  ghost predicate IsCutOf(out: seq<Record>, all: seq<Record>, k: nat) {
    exists s: seq<Record> ::
      multiset(s) == multiset(all) && Ordered(NewerThan(), s) && out == s[..Min(k, |s|)]
  }

  /** merged holds the newest of all, newest first, as many as the limit says; rest is what is cut off. */
  ghost predicate AreNewest(merged: seq<Record>, rest: seq<Record>, all: seq<Record>, limit: int) {
    && multiset(merged + rest) == multiset(all)
    && |merged| == (var k := if limit > 0 then limit else 50; if |all| < k then |all| else k)
    && (forall i, j :: 0 <= i < j < |merged| ==> merged[i].createdAt >= merged[j].createdAt)
    && (forall x, y :: x in merged && y in rest ==> x.createdAt >= y.createdAt)
  }

  lemma NewestFirst(s: seq<Record>, i: nat, j: nat)
    requires Ordered(NewerThan(), s) && i < j < |s|
    ensures s[i].createdAt >= s[j].createdAt
  {
    assert !NewerThan()(s[j], s[i]);
  }

  lemma ArrangedIsNewest(s: seq<Record>, all: seq<Record>, limit: int, k: nat)
    requires multiset(s) == multiset(all) && Ordered(NewerThan(), s)
    requires k == Min(EffectiveLimit(limit), |s|) && |s| == |all|
    ensures AreNewest(s[..k], s[k..], all, limit)
  {
    assert s[..k] + s[k..] == s;
    forall i, j | 0 <= i < j < k ensures s[..k][i].createdAt >= s[..k][j].createdAt {
      NewestFirst(s, i, j);
    }
    forall x, y | x in s[..k] && y in s[k..] ensures x.createdAt >= y.createdAt {
      NothingNewerIsCut(s, k, x, y);
    }
  }

  lemma NothingNewerIsCut(s: seq<Record>, k: nat, x: Record, y: Record)
    requires Ordered(NewerThan(), s) && k <= |s| && x in s[..k] && y in s[k..]
    ensures x.createdAt >= y.createdAt
  {
    var i :| 0 <= i < k && s[..k][i] == x;
    var j :| 0 <= j < |s| - k && s[k..][j] == y;
    NewestFirst(s, i, k + j);
  }

  /** Newest first, as many as the limit says, 50 by default, and nothing cut off is newer. */
  lemma CutIsNewest(merged: seq<Record>, all: seq<Record>, limit: int)
    requires IsCutOf(merged, all, EffectiveLimit(limit))
    ensures exists rest :: AreNewest(merged, rest, all, limit)
  {
    var k := EffectiveLimit(limit);
    var s: seq<Record> :| multiset(s) == multiset(all) && Ordered(NewerThan(), s) && merged == s[..Min(k, |s|)];
    assert |s| == |multiset(s)| == |multiset(all)| == |all|;
    ArrangedIsNewest(s, all, limit, Min(k, |s|));
  }

  method MergeUsageEvents(local: seq<Record>, remote: seq<Record>, limit: int) returns (merged: seq<Record>)
    ensures IsCutOf(merged, local + remote, EffectiveLimit(limit))
  {
    merged := local + remote;
    StableSortSorts(NewerThan(), merged);
    merged := StableSort(NewerThan(), merged);
    ghost var s := merged;
    var limit := limit;
    if limit <= 0 {
      limit := 50;
    }
    if |merged| > limit {
      merged := merged[..limit];
    }
    assert multiset(s) == multiset(local + remote) && merged == s[..Min(limit, |s|)];
  }

  function NotBefore(t: int): Record -> bool {
    (r: Record) => r.createdAt >= t
  }

  /** How many records are not older than t. */
  function CountSince(rs: seq<Record>, t: int): nat {
    |Filter(rs, NotBefore(t))|
  }

  lemma CountAppended(rs: seq<Record>, r: Record, t: int)
    ensures CountSince(rs + [r], t) == CountSince(rs, t) + (if r.createdAt >= t then 1 else 0)
  {
    assert (rs + [r])[..|rs|] == rs;
  }

  lemma {:induction false} OrderedByCount(s: seq<Record>, t: int, i: nat)
    requires Ordered(NewerThan(), s) && i < |s|
    ensures s[i].createdAt >= t <==> i < CountSince(s, t)
    ensures CountSince(s, t) <= |s|
  {
    var n := |s| - 1;
    var rest := s[..n];
    assert s == rest + [s[n]];
    CountAppended(rest, s[n], t);
    if n > 0 {
      assert !NewerThan()(s[n], s[n - 1]);
      OrderedByCount(rest, t, n - 1);
      if i < n {
        OrderedByCount(rest, t, i);
      }
    }
  }

  lemma {:induction false} CountIsMonotone(s: seq<Record>, k: nat, t: int)
    requires Ordered(NewerThan(), s) && k <= |s|
    ensures CountSince(s[..k], t) == Min(k, CountSince(s, t))
  {
    var c, d := CountSince(s, t), CountSince(s[..k], t);
    if k > 0 {
      OrderedByCount(s, t, k - 1);
      OrderedByCount(s[..k], t, k - 1);
    }
    if d < k {
      OrderedByCount(s[..k], t, d);
      if d < |s| {
        OrderedByCount(s, t, d);
      }
    }
    if 0 < d {
      OrderedByCount(s[..k], t, d - 1);
      OrderedByCount(s, t, d - 1);
    }
    if s == [] {
      assert s[..k] == s;
    }
  }

  lemma CountOfCut(out: seq<Record>, all: seq<Record>, k: nat, t: int)
    requires IsCutOf(out, all, k)
    ensures CountSince(out, t) == Min(k, CountSince(all, t))
    ensures |out| == Min(k, |all|) && Ordered(NewerThan(), out)
  {
    var s: seq<Record> :| multiset(s) == multiset(all) && Ordered(NewerThan(), s) && out == s[..Min(k, |s|)];
    assert |s| == |multiset(s)| == |all|;
    FilterKeepsMultisets(s, all, NotBefore(t));
    var f, g := Filter(s, NotBefore(t)), Filter(all, NotBefore(t));
    assert |f| == |multiset(f)| == |multiset(g)| == |g|;
    CountIsMonotone(s, Min(k, |s|), t);
    if s != [] {
      OrderedByCount(s, t, 0);
    }
  }

  function Times(rs: seq<Record>): seq<int> {
    seq(|rs|, i requires 0 <= i < |rs| => rs[i].createdAt)
  }

  /** Newest-first lists of one length with the same counts carry the same times. */
  lemma SameCountsSameTimes(a: seq<Record>, b: seq<Record>)
    requires Ordered(NewerThan(), a) && Ordered(NewerThan(), b) && |a| == |b|
    requires forall t :: CountSince(a, t) == CountSince(b, t)
    ensures Times(a) == Times(b)
  {
    forall i | 0 <= i < |a| ensures a[i].createdAt == b[i].createdAt {
      OrderedByCount(a, a[i].createdAt, i);
      OrderedByCount(b, a[i].createdAt, i);
      OrderedByCount(a, b[i].createdAt, i);
      OrderedByCount(b, b[i].createdAt, i);
    }
  }

  lemma CountOfMerged(a: seq<Record>, b: seq<Record>, k: nat, merged: seq<Record>, t: int)
    requires IsCutOf(merged, a + b, k)
    ensures CountSince(merged, t) == Min(k, CountSince(a, t) + CountSince(b, t))
    ensures |merged| == Min(k, |a| + |b|)
  {
    CountOfCut(merged, a + b, k, t);
    FilterConcat(a, b, NotBefore(t));
  }

  /** Cutting each side to its k newest before merging loses nothing: the times are those of the k newest of all. */
  lemma LimitPushdownIsLossless(local: seq<Record>, remote: seq<Record>, localCut: seq<Record>, remoteCut: seq<Record>,
                                limit: int, merged: seq<Record>, whole: seq<Record>)
    requires IsCutOf(localCut, local, EffectiveLimit(limit)) && IsCutOf(remoteCut, remote, EffectiveLimit(limit))
    requires IsCutOf(merged, localCut + remoteCut, EffectiveLimit(limit))
    requires IsCutOf(whole, local + remote, EffectiveLimit(limit))
    ensures Times(merged) == Times(whole)
  {
    var k := EffectiveLimit(limit);
    forall t ensures CountSince(merged, t) == CountSince(whole, t) && |merged| == |whole| {
      CountOfCut(localCut, local, k, t);
      CountOfCut(remoteCut, remote, k, t);
      CountOfMerged(localCut, remoteCut, k, merged, t);
      CountOfMerged(local, remote, k, whole, t);
    }
    assert CountSince(merged, 0) == CountSince(whole, 0);
    CountOfCut(merged, localCut + remoteCut, k, 0);
    CountOfCut(whole, local + remote, k, 0);
    SameCountsSameTimes(merged, whole);
  }

  // ----- summaries

  function NormalizeModality(m: string): string {
    if m == "" then "chat" else m
  }

  /** The bucket a record falls into, and the label it would give that bucket. */
  function BucketKey(day: Calendar, groupBy: string, e: Record): (string, string) {
    if groupBy == "model" then (e.model, e.model)
    else if groupBy == "key" then
      var id := if e.apiKeyId == "" then "unknown" else e.apiKeyId;
      (id, if e.keyName == "" then id else e.keyName)
    else if groupBy == "modality" then (NormalizeModality(e.modality), NormalizeModality(e.modality))
    else if groupBy == "byok" then if e.usedByok then ("byok", "BYOK") else ("platform", "Platform")
    else (day(e.createdAt), day(e.createdAt))
  }

  /** The name of a record's bucket and the label the record would give it, by grouping. */
  lemma BucketIs(day: Calendar, groupBy: string, e: Record, name: string, labelText: string)
    requires BucketKey(day, groupBy, e) == (name, labelText)
    ensures groupBy == "model" ==> name == labelText == e.model
    ensures groupBy == "key" && e.apiKeyId != "" ==> name == e.apiKeyId
    ensures groupBy == "key" && e.apiKeyId == "" ==> name == "unknown"
    ensures groupBy == "key" ==> labelText == if e.keyName != "" then e.keyName else name
    ensures groupBy == "modality" && e.modality != "" ==> name == labelText == e.modality
    ensures groupBy == "modality" && e.modality == "" ==> name == labelText == "chat"
    ensures groupBy == "byok" && e.usedByok ==> name == "byok" && labelText == "BYOK"
    ensures groupBy == "byok" && !e.usedByok ==> name == "platform" && labelText == "Platform"
    ensures groupBy !in {"model", "key", "modality", "byok"} ==> name == labelText == day(e.createdAt)
  {
  }

  function Amount(m: map<string, real>, k: string): real {
    if k in m then m[k] else 0.0
  }

  function AddAmounts(a: map<string, real>, b: map<string, real>): map<string, real> {
    map k | k in a.Keys + b.Keys :: Amount(a, k) + Amount(b, k)
  }

  function NumberOf(v: Metric): real {
    match v
    case MetricFloat(x) => x
    case MetricInt(n) => n as real
    case MetricOther => 0.0
  }

  /** The metrics that count: anything but a number is ignored. */
  function Numeric(m: map<string, Metric>): map<string, real> {
    map k | k in m && !m[k].MetricOther? :: NumberOf(m[k])
  }

  function OpenedBy(e: Record, key: (string, string)): Bucket {
    Bucket(key.0, key.1, 0, 0.0, 0, 0, map[], e.keyKind, e.ownerEmail, e.ownerName)
  }

  function Counting(b: Bucket, e: Record): Bucket {
    b.(requests := b.requests + 1, cost := b.cost + (if e.cost.Some? then e.cost.value else 0.0),
       promptTokens := b.promptTokens + e.promptTokens, completionTokens := b.completionTokens + e.completionTokens,
       metrics := AddAmounts(b.metrics, Numeric(e.metrics)))
  }

  /** Accumulators after one more record. */
  function Accumulated(acc: map<string, Bucket>, day: Calendar, groupBy: string, e: Record): map<string, Bucket> {
    var key := BucketKey(day, groupBy, e);
    acc[key.0 := Counting(if key.0 in acc then acc[key.0] else OpenedBy(e, key), e)]
  }

  function Summary(day: Calendar, groupBy: string, es: seq<Record>): map<string, Bucket> {
    if es == [] then map[]
    else Accumulated(Summary(day, groupBy, es[..|es| - 1]), day, groupBy, es[|es| - 1])
  }

  /** l holds every bucket of m, once each. */
  ghost predicate IsListing(l: seq<Bucket>, m: map<string, Bucket>) {
    multiset(l) == multiset(m.Values) && forall k <- m :: m[k].bucket == k
  }

  lemma {:induction false} SummaryIsKeyed(day: Calendar, groupBy: string, es: seq<Record>)
    ensures forall k <- Summary(day, groupBy, es) ::
              Summary(day, groupBy, es)[k].bucket == k && (Summary(day, groupBy, es)[k].labelText == "" <==> k == "")
  {
    if es != [] {
      SummaryIsKeyed(day, groupBy, es[..|es| - 1]);
    }
  }

  // ----- the summarizing loops

  method AddMetrics(totals: map<string, real>, metrics: map<string, Metric>) returns (r: map<string, real>)
    ensures r == AddAmounts(totals, Numeric(metrics))
  {
    r := totals;
    var keys := metrics.Keys;
    while keys != {}
      invariant keys <= metrics.Keys
      invariant r.Keys == totals.Keys + (Numeric(metrics).Keys - keys)
      invariant forall k <- r :: r[k] == Amount(totals, k) + (if k in keys then 0.0 else Amount(Numeric(metrics), k))
    {
      var k :| k in keys;
      match metrics[k] {
        case MetricFloat(x) => r := r[k := (if k in r then r[k] else 0.0) + x];
        case MetricInt(n) => r := r[k := (if k in r then r[k] else 0.0) + n as real];
        case MetricOther =>
      }
      keys := keys - {k};
    }
  }

  /** Summaries list busier buckets first; days are in order. */
  function ListedBefore(groupBy: string): (Bucket, Bucket) -> bool {
    (a: Bucket, b: Bucket) =>
      if groupBy == "day" || a.requests == b.requests then Less(a.bucket, b.bucket) else a.requests > b.requests
  }

  lemma ListedBeforeIsOrder(groupBy: string)
    ensures IsOrder(ListedBefore(groupBy))
  {
    var less := ListedBefore(groupBy);
    forall x, y | less(x, y) ensures !less(y, x) {
      LessTotal(x.bucket, y.bucket);
    }
    forall x, y, z | less(x, y) && !less(z, y) ensures less(x, z) {
      LessTotal(y.bucket, z.bucket);
      if Less(x.bucket, y.bucket) && Less(y.bucket, z.bucket) {
        LessTransitive(x.bucket, y.bucket, z.bucket);
      }
    }
  }

  /** Days go up; otherwise requests go down, and names go up within a number of requests. */
  lemma ListedInOrder(groupBy: string, out: seq<Bucket>, i: nat, j: nat)
    requires Ordered(ListedBefore(groupBy), out) && i < j < |out|
    ensures var a, b := out[i], out[j];
            if groupBy == "day" then a.bucket == b.bucket || Less(a.bucket, b.bucket)
            else a.requests > b.requests ||
                 (a.requests == b.requests && (a.bucket == b.bucket || Less(a.bucket, b.bucket)))
  {
    assert !ListedBefore(groupBy)(out[j], out[i]);
    LessTotal(out[i].bucket, out[j].bucket);
  }

  lemma ValuesWithout(m: map<string, Bucket>, k: string)
    requires (forall x <- m :: m[x].bucket == x) && k in m
    ensures (m - {k}).Values == m.Values - {m[k]} && m[k] in m.Values
  {
    var n := m - {k};
    forall b ensures b in n.Values <==> b in m.Values && b != m[k] {
      if b in m.Values && b != m[k] {
        var x :| x in m && m[x] == b;
        assert x in n && n[x] == b;
      }
    }
  }

  lemma MultisetWithout<T>(s: set<T>, x: T)
    requires x in s
    ensures multiset(s - {x}) == multiset(s) - multiset{x}
    ensures multiset(s - {x}) + multiset{x} == multiset(s)
  {
  }

  lemma ListingGrows(l: seq<Bucket>, m: map<string, Bucket>, b: Bucket)
    requires IsListing(l, m) && b.bucket !in m
    ensures IsListing(l + [b], m[b.bucket := b])
  {
    var n := m[b.bucket := b];
    assert n - {b.bucket} == m;
    ValuesWithout(n, b.bucket);
    MultisetWithout(n.Values, b);
  }

  method ListBuckets(acc: map<string, Bucket>) returns (out: seq<Bucket>)
    requires forall k <- acc :: acc[k].bucket == k
    ensures IsListing(out, acc)
  {
    out := [];
    var keys := acc.Keys;
    ghost var done: map<string, Bucket> := map[];
    while keys != {}
      invariant keys <= acc.Keys
      invariant done == map k | k in acc.Keys - keys :: acc[k]
      invariant IsListing(out, done)
    {
      var k :| k in keys;
      ListingGrows(out, done, acc[k]);
      out := out + [acc[k]];
      done := done[k := acc[k]];
      keys := keys - {k};
    }
    assert done == acc;
  }

  method CountRecord(b: Bucket, e: Record) returns (a: Bucket)
    ensures a == Counting(b, e)
  {
    a := b.(requests := b.requests + 1, promptTokens := b.promptTokens + e.promptTokens,
            completionTokens := b.completionTokens + e.completionTokens);
    if e.cost.Some? {
      a := a.(cost := a.cost + e.cost.value);
    }
    var totals := AddMetrics(a.metrics, e.metrics);
    a := a.(metrics := totals);
  }

  method SummarizeUsageRecords(day: Calendar, records: seq<Record>, groupBy: string) returns (out: seq<Bucket>)
    ensures IsListing(out, Summary(day, groupBy, records))
    ensures Ordered(ListedBefore(groupBy), out)
  {
    var acc: map<string, Bucket> := map[];
    for i := 0 to |records|
      invariant acc == Summary(day, groupBy, records[..i])
    {
      assert records[..i + 1][..i] == records[..i];
      var e := records[i];
      var key := BucketKey(day, groupBy, e);
      var a := CountRecord(if key.0 in acc then acc[key.0] else OpenedBy(e, key), e);
      acc := acc[key.0 := a];
    }
    assert records[..|records|] == records;
    SummaryIsKeyed(day, groupBy, records);
    out := ListBuckets(acc);
    ListedBeforeIsOrder(groupBy);
    StableSortSorts(ListedBefore(groupBy), out);
    out := StableSort(ListedBefore(groupBy), out);
  }

  // ----- listings

  lemma ListedIsKeyed(l: seq<Bucket>, m: map<string, Bucket>, i: nat)
    requires IsListing(l, m) && i < |l|
    ensures l[i].bucket in m && m[l[i].bucket] == l[i]
  {
    assert l[i] in multiset(l);
  }

  /** Taking one bucket off a listing. */
  lemma ListingShrinks(l: seq<Bucket>, m: map<string, Bucket>)
    requires IsListing(l, m) && l != []
    ensures var x := l[|l| - 1];
            x.bucket in m && m[x.bucket] == x && IsListing(l[..|l| - 1], m - {x.bucket})
  {
    var x, rest := l[|l| - 1], l[..|l| - 1];
    assert l == rest + [x];
    ListedIsKeyed(l, m, |l| - 1);
    ValuesWithout(m, x.bucket);
    assert multiset(rest) == multiset(l) - multiset{x};
    MultisetWithout(m.Values, x);
  }

  lemma EmptyListing(m: map<string, Bucket>)
    requires IsListing([], m)
    ensures m == map[]
  {
    assert forall k <- m :: m[k] in multiset(m.Values);
  }

  // ----- what the sums are

  datatype Measure = Requests | Cost | PromptTokens | CompletionTokens | MetricTotal(name: string)

  function ValueOf(m: Measure, b: Bucket): real {
    match m
    case Requests => b.requests as real
    case Cost => b.cost
    case PromptTokens => b.promptTokens as real
    case CompletionTokens => b.completionTokens as real
    case MetricTotal(name) => Amount(b.metrics, name)
  }

  function WeightOf(m: Measure, e: Record): real {
    match m
    case Requests => 1.0
    case Cost => if e.cost.Some? then e.cost.value else 0.0
    case PromptTokens => e.promptTokens as real
    case CompletionTokens => e.completionTokens as real
    case MetricTotal(name) =>
      if name !in e.metrics then 0.0
      else
        match e.metrics[name]
        case MetricFloat(x) => x
        case MetricInt(n) => n as real
        case MetricOther => 0.0
  }

  function Total(m: Measure, es: seq<Record>): real {
    if es == [] then 0.0 else Total(m, es[..|es| - 1]) + WeightOf(m, es[|es| - 1])
  }

  function Sum(m: Measure, l: seq<Bucket>): real {
    if l == [] then 0.0 else Sum(m, l[..|l| - 1]) + ValueOf(m, l[|l| - 1])
  }

  function FallsInto(day: Calendar, groupBy: string, k: string): Record -> bool {
    (e: Record) => BucketKey(day, groupBy, e).0 == k
  }

  function FallsElsewhere(day: Calendar, groupBy: string, k: string): Record -> bool {
    (e: Record) => BucketKey(day, groupBy, e).0 != k
  }

  lemma AmountOfSum(a: map<string, real>, b: map<string, real>, k: string)
    ensures Amount(AddAmounts(a, b), k) == Amount(a, k) + Amount(b, k)
  {
  }

  lemma CountingAdds(m: Measure, b: Bucket, e: Record)
    ensures ValueOf(m, Counting(b, e)) == ValueOf(m, b) + WeightOf(m, e)
  {
    if m.MetricTotal? {
      AmountOfSum(b.metrics, Numeric(e.metrics), m.name);
    }
  }

  lemma Appended(m: Measure, es: seq<Record>, e: Record)
    ensures Total(m, es + [e]) == Total(m, es) + WeightOf(m, e)
  {
    assert (es + [e])[..|es|] == es;
  }

  /** A bucket holds the totals of exactly its records, and the names its first record gave it. */
  lemma {:induction false} BucketHoldsItsRecords(day: Calendar, groupBy: string, es: seq<Record>, k: string, m: Measure)
    ensures var own, s := Filter(es, FallsInto(day, groupBy, k)), Summary(day, groupBy, es);
            (k in s <==> own != []) &&
            (k in s ==> ValueOf(m, s[k]) == Total(m, own) &&
                        s[k].labelText == BucketKey(day, groupBy, own[0]).1 && s[k].keyKind == own[0].keyKind &&
                        s[k].ownerEmail == own[0].ownerEmail && s[k].ownerName == own[0].ownerName)
  {
    if es != [] {
      var rest, e := es[..|es| - 1], es[|es| - 1];
      BucketHoldsItsRecords(day, groupBy, rest, k, m);
      var own, s := Filter(rest, FallsInto(day, groupBy, k)), Summary(day, groupBy, rest);
      var key := BucketKey(day, groupBy, e);
      assert own + [] == own;
      if key.0 == k {
        var b := if k in s then s[k] else OpenedBy(e, key);
        CountingAdds(m, b, e);
        Appended(m, own, e);
      }
    }
  }

  /** A bucket totals the metrics of which one of its records has a number. */
  lemma {:induction false} BucketMetricsAre(day: Calendar, groupBy: string, es: seq<Record>, k: string, name: string)
    requires k in Summary(day, groupBy, es)
    ensures name in Summary(day, groupBy, es)[k].metrics <==>
            exists e :: e in es && BucketKey(day, groupBy, e).0 == k && name in e.metrics
                        && !e.metrics[name].MetricOther?
  {
    var rest, last := es[..|es| - 1], es[|es| - 1];
    assert es == rest + [last];
    if k in Summary(day, groupBy, rest) {
      BucketMetricsAre(day, groupBy, rest, k, name);
    } else {
      BucketHoldsItsRecords(day, groupBy, rest, k, Requests);
    }
  }

  lemma AccumulatedWithout(s: map<string, Bucket>, day: Calendar, groupBy: string, e: Record, k: string)
    ensures Accumulated(s, day, groupBy, e) - {k} ==
            if BucketKey(day, groupBy, e).0 == k then s - {k} else Accumulated(s - {k}, day, groupBy, e)
  {
  }

  lemma SummaryAppended(day: Calendar, groupBy: string, es: seq<Record>, e: Record)
    ensures Summary(day, groupBy, es + [e]) == Accumulated(Summary(day, groupBy, es), day, groupBy, e)
  {
    assert (es + [e])[..|es|] == es;
  }

  lemma {:induction false} SummaryWithout(day: Calendar, groupBy: string, es: seq<Record>, k: string)
    ensures Summary(day, groupBy, Filter(es, FallsElsewhere(day, groupBy, k))) == Summary(day, groupBy, es) - {k}
  {
    if es != [] {
      var rest, e := es[..|es| - 1], es[|es| - 1];
      SummaryWithout(day, groupBy, rest, k);
      var kept := Filter(rest, FallsElsewhere(day, groupBy, k));
      AccumulatedWithout(Summary(day, groupBy, rest), day, groupBy, e, k);
      if BucketKey(day, groupBy, e).0 == k {
        assert kept + [] == kept;
      } else {
        SummaryAppended(day, groupBy, kept, e);
      }
    }
  }

  lemma {:induction false} TotalSplits(day: Calendar, groupBy: string, es: seq<Record>, k: string, m: Measure)
    ensures Total(m, es) ==
            Total(m, Filter(es, FallsInto(day, groupBy, k))) + Total(m, Filter(es, FallsElsewhere(day, groupBy, k)))
  {
    if es != [] {
      var rest, e := es[..|es| - 1], es[|es| - 1];
      TotalSplits(day, groupBy, rest, k, m);
      var own, other := Filter(rest, FallsInto(day, groupBy, k)), Filter(rest, FallsElsewhere(day, groupBy, k));
      assert own + [] == own && other + [] == other;
      if BucketKey(day, groupBy, e).0 == k {
        Appended(m, own, e);
      } else {
        Appended(m, other, e);
      }
    }
  }

  /** No grouping loses or invents usage: every measure sums to that of the records. */
  lemma {:induction false} GrandTotalsAreKept(day: Calendar, groupBy: string, es: seq<Record>, l: seq<Bucket>,
                                              m: Measure)
    requires IsListing(l, Summary(day, groupBy, es))
    ensures Sum(m, l) == Total(m, es)
    decreases l
  {
    if l == [] {
      EmptyListing(Summary(day, groupBy, es));
      assert es != [] ==> BucketKey(day, groupBy, es[|es| - 1]).0 in Summary(day, groupBy, es);
    } else {
      var x := l[|l| - 1];
      var other := Filter(es, FallsElsewhere(day, groupBy, x.bucket));
      ListingShrinks(l, Summary(day, groupBy, es));
      SummaryWithout(day, groupBy, es, x.bucket);
      GrandTotalsAreKept(day, groupBy, other, l[..|l| - 1], m);
      BucketIsRest(day, groupBy, es, x, m);
    }
  }

  lemma BucketIsRest(day: Calendar, groupBy: string, es: seq<Record>, x: Bucket, m: Measure)
    requires x.bucket in Summary(day, groupBy, es) && Summary(day, groupBy, es)[x.bucket] == x
    ensures Total(m, es) == Total(m, Filter(es, FallsElsewhere(day, groupBy, x.bucket))) + ValueOf(m, x)
  {
    TotalSplits(day, groupBy, es, x.bucket, m);
    BucketHoldsItsRecords(day, groupBy, es, x.bucket, m);
  }

  lemma {:induction false} BucketsAreUnique(l: seq<Bucket>, m: map<string, Bucket>, i: nat, j: nat)
    requires IsListing(l, m) && i < j < |l|
    ensures l[i].bucket != l[j].bucket
    decreases l
  {
    var rest := m - {l[|l| - 1].bucket};
    ListingShrinks(l, m);
    if j == |l| - 1 {
      ListedIsKeyed(l[..j], rest, i);
    } else {
      BucketsAreUnique(l[..|l| - 1], rest, i, j);
    }
  }

  /** The buckets of a summary are those its records fall into. */
  lemma SummaryKeys(day: Calendar, groupBy: string, es: seq<Record>, k: string)
    ensures k in Summary(day, groupBy, es) <==> exists e :: e in es && BucketKey(day, groupBy, e).0 == k
  {
    BucketHoldsItsRecords(day, groupBy, es, k, Requests);
    var own := Filter(es, FallsInto(day, groupBy, k));
    assert own != [] ==> own[0] in own;
  }
}
