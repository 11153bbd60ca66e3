/**
 Request gating: region allowlist, policy, hooks, sandboxed hooks and, last, the request quota. Counters are a store
 whose reads and increments may fail; verdicts of the other gates are parameters.
 */
module Gate {
  import opened Collections
  import opened Snapshot
  import opened QuotaAdmission

  datatype IncrFault = NoFault | FailsUnapplied | FailsApplied

  /** Which counter operations fail, and whether a failed increment still took effect. */
  datatype CounterFaults = CounterFaults(get: CounterKey -> bool, incr: CounterKey -> IncrFault)

  ghost predicate Faultless(f: CounterFaults) {
    forall c :: !f.get(c) && f.incr(c) == NoFault
  }

  class CounterStore {
    var used: map<CounterKey, int>

    constructor ()
      ensures used == map[]
    {
      used := map[];
    }

    function Count(c: CounterKey): int
      reads this
    {
      CountIn(used, c)
    }

    method Get(c: CounterKey, f: CounterFaults) returns (r: Result<int, ()>)
      ensures r == if f.get(c) then Err(()) else Ok(Count(c))
    {
      r := if f.get(c) then Err(()) else Ok(Count(c));
    }

    method Incr(c: CounterKey, delta: int, f: CounterFaults) returns (r: Result<int, ()>)
      modifies this
      ensures used == if f.incr(c) == FailsUnapplied then old(used) else old(used)[c := old(Count(c)) + delta]
      ensures r == if f.incr(c) == NoFault then Ok(Count(c)) else Err(())
    {
      if f.incr(c) != FailsUnapplied {
        used := used[c := Count(c) + delta];
      }
      r := if f.incr(c) == NoFault then Ok(Count(c)) else Err(());
    }
  }

  function CounterOf(q: Quota): CounterKey {
    CounterKey(q.scopeType, q.scopeId, q.metric, q.window)
  }

  /** The quota of every given window that has one, in window order. */
  function ResolvedIn(s: Snapshot, key: ApiKey, metric: string, windows: seq<string>): seq<Quota> {
    if windows == [] then []
    else
      var n := |windows| - 1;
      var rest := ResolvedIn(s, key, metric, windows[..n]);
      var q := BestQuota(s.quotas, key, metric, windows[n]);
      if q.Some? then rest + [q.value] else rest
  }

  /** The quotas a request of this key is charged to. */
  function Resolved(s: Snapshot, key: ApiKey): seq<Quota> {
    ResolvedIn(s, key, METRIC_REQUESTS, REQUEST_WINDOWS)
  }

  lemma ResolvedQuotaMatches(s: Snapshot, key: ApiKey, metric: string, window: string)
    requires window != "" && BestQuota(s.quotas, key, metric, window).Some?
    ensures BestQuota(s.quotas, key, metric, window).value.window == window
    ensures BestQuota(s.quotas, key, metric, window).value.metric == metric
  {
    FirstMaxIsFirstMax(s.quotas, RankFor(key, metric, window));
  }

  /** Distinct counters, as the windows of a request have them. */
  predicate CountersDiffer(qs: seq<Quota>) {
    forall i, j :: 0 <= i < j < |qs| ==> CounterOf(qs[i]) != CounterOf(qs[j])
  }

  /** Resolved quotas of different windows use different counters. */
  lemma {:induction false} ResolvedCountersDistinct(s: Snapshot, key: ApiKey, metric: string, windows: seq<string>)
    requires "" !in windows
    requires forall i, j :: 0 <= i < j < |windows| ==> windows[i] != windows[j]
    ensures var qs := ResolvedIn(s, key, metric, windows);
            && (forall q :: q in qs ==> q.window in windows)
            && CountersDiffer(qs)
  {
    if windows != [] {
      var n := |windows| - 1;
      ResolvedCountersDistinct(s, key, metric, windows[..n]);
      if BestQuota(s.quotas, key, metric, windows[n]).Some? {
        ResolvedQuotaMatches(s, key, metric, windows[n]);
      }
      assert windows == windows[..n] + [windows[n]];
    }
  }

  predicate ChargedTo(qs: seq<Quota>, c: CounterKey) {
    exists i :: 0 <= i < |qs| && CounterOf(qs[i]) == c
  }

  ghost predicate Exhausted(used: map<CounterKey, int>, qs: seq<Quota>) {
    exists i :: 0 <= i < |qs| && CountIn(used, CounterOf(qs[i])) >= qs[i].limitValue
  }

  /** Every resolved counter one up, every other counter as it was. */
  ghost predicate ChargedOnce(before: map<CounterKey, int>, after: map<CounterKey, int>, qs: seq<Quota>) {
    forall c :: CountIn(after, c) == CountIn(before, c) + if ChargedTo(qs, c) then 1 else 0
  }

  ghost predicate ChargedAtMostOnce(before: map<CounterKey, int>, after: map<CounterKey, int>, qs: seq<Quota>) {
    forall c :: CountIn(before, c) <= CountIn(after, c) <= CountIn(before, c) + if ChargedTo(qs, c) then 1 else 0
  }

  // ----- what is charged, in terms of the quotas themselves

  /** Counters are apart unless made for the same scope, metric and window. */
  lemma CountersApart(q: Quota, r: Quota)
    ensures CounterOf(q) == CounterOf(r) <==>
            q.scopeType == r.scopeType && q.scopeId == r.scopeId && q.metric == r.metric && q.window == r.window
  {
  }

  /** c is the counter of the quota that the key has for the metric and the counter's window. */
  ghost predicate Counts(s: Snapshot, key: ApiKey, metric: string, c: CounterKey, q: Quota) {
    && c == CounterKey(q.scopeType, q.scopeId, metric, c.window)
    && (c.window == "minute" || c.window == "hour" || c.window == "day" || c.window == "total")
    && IsFirstMax(s.quotas, RankFor(key, metric, c.window), Some(q))
  }

  ghost predicate IsCharged(s: Snapshot, key: ApiKey, metric: string, c: CounterKey) {
    exists q :: Counts(s, key, metric, c, q)
  }

  ghost predicate IsUsedUp(used: map<CounterKey, int>, s: Snapshot, key: ApiKey) {
    exists c, q :: Counts(s, key, METRIC_REQUESTS, c, q) && CountIn(used, c) >= q.limitValue
  }

  lemma {:induction false} ResolvedMembers(s: Snapshot, key: ApiKey, metric: string, windows: seq<string>, q: Quota)
    ensures q in ResolvedIn(s, key, metric, windows) <==>
            exists w :: w in windows && BestQuota(s.quotas, key, metric, w) == Some(q)
  {
    if windows != [] {
      var n := |windows| - 1;
      assert windows == windows[..n] + [windows[n]];
      ResolvedMembers(s, key, metric, windows[..n], q);
    }
  }

  lemma ResolvedCounts(s: Snapshot, key: ApiKey, metric: string, q: Quota)
    ensures q in ResolvedIn(s, key, metric, REQUEST_WINDOWS) <==> Counts(s, key, metric, CounterOf(q), q)
  {
    ResolvedMembers(s, key, metric, REQUEST_WINDOWS, q);
    RequestWindowsDistinct();
    if w :| w in REQUEST_WINDOWS && BestQuota(s.quotas, key, metric, w) == Some(q) {
      ResolvedQuotaMatches(s, key, metric, w);
      FirstMaxIff(s.quotas, RankFor(key, metric, w), q);
    }
    if Counts(s, key, metric, CounterOf(q), q) {
      assert q.window in REQUEST_WINDOWS by {
        assert REQUEST_WINDOWS[0] == "minute" && REQUEST_WINDOWS[1] == "hour" && REQUEST_WINDOWS[2] == "day"
            && REQUEST_WINDOWS[3] == "total";
      }
      FirstMaxIff(s.quotas, RankFor(key, metric, q.window), q);
    }
  }

  lemma CountsIsCounterOf(s: Snapshot, key: ApiKey, metric: string, c: CounterKey, q: Quota)
    requires Counts(s, key, metric, c, q)
    ensures c == CounterOf(q)
  {
    assert Rank(q, key, metric, c.window) > 0;
  }

  lemma ChargedIsCharged(s: Snapshot, key: ApiKey, metric: string)
    ensures forall c :: ChargedTo(ResolvedIn(s, key, metric, REQUEST_WINDOWS), c) <==> IsCharged(s, key, metric, c)
  {
    var qs := ResolvedIn(s, key, metric, REQUEST_WINDOWS);
    forall c ensures ChargedTo(qs, c) <==> IsCharged(s, key, metric, c) {
      if ChargedTo(qs, c) {
        var i :| 0 <= i < |qs| && CounterOf(qs[i]) == c;
        ResolvedCounts(s, key, metric, qs[i]);
      }
      if q :| Counts(s, key, metric, c, q) {
        CountsIsCounterOf(s, key, metric, c, q);
        ResolvedCounts(s, key, metric, q);
        var i :| 0 <= i < |qs| && qs[i] == q;
        assert CounterOf(qs[i]) == c;
      }
    }
  }

  lemma ExhaustedIsUsedUp(s: Snapshot, key: ApiKey, used: map<CounterKey, int>)
    ensures Exhausted(used, Resolved(s, key)) <==> IsUsedUp(used, s, key)
  {
    var qs := Resolved(s, key);
    if Exhausted(used, qs) {
      var i :| 0 <= i < |qs| && CountIn(used, CounterOf(qs[i])) >= qs[i].limitValue;
      ResolvedCounts(s, key, METRIC_REQUESTS, qs[i]);
    }
    if c, q :| Counts(s, key, METRIC_REQUESTS, c, q) && CountIn(used, c) >= q.limitValue {
      CountsIsCounterOf(s, key, METRIC_REQUESTS, c, q);
      ResolvedCounts(s, key, METRIC_REQUESTS, q);
      var i :| 0 <= i < |qs| && qs[i] == q;
      assert CountIn(used, CounterOf(qs[i])) >= qs[i].limitValue;
    }
  }

  lemma RequestWindowsDistinct()
    ensures "" !in REQUEST_WINDOWS
    ensures forall i, j :: 0 <= i < j < |REQUEST_WINDOWS| ==> REQUEST_WINDOWS[i] != REQUEST_WINDOWS[j]
  {
    assert REQUEST_WINDOWS[0][0] == 'm' && REQUEST_WINDOWS[1][0] == 'h' && REQUEST_WINDOWS[2][0] == 'd'
        && REQUEST_WINDOWS[3][0] == 't';
  }

  /** First pass: read every resolved counter, stop at the first that fails or is at its limit. */
  method CheckRequests(store: CounterStore, s: Snapshot, key: ApiKey, f: CounterFaults)
    returns (hits: seq<Quota>, denied: bool, failed: bool)
    ensures !(denied && failed)
    ensures denied ==> Exhausted(store.used, Resolved(s, key))
    ensures !denied && !failed ==> hits == Resolved(s, key) && !Exhausted(store.used, hits)
    ensures Faultless(f) ==> !failed
  {
    hits, denied, failed := [], false, false;
    for i := 0 to |REQUEST_WINDOWS|
      invariant hits == ResolvedIn(s, key, METRIC_REQUESTS, REQUEST_WINDOWS[..i])
      invariant hits <= Resolved(s, key)
      invariant !Exhausted(store.used, hits)
    {
      ResolvedPrefix(s, key, i);
      var q := ResolveQuota(s, key, METRIC_REQUESTS, REQUEST_WINDOWS[i]);
      if q.Some? {
        var more := hits + [q.value];
        assert more == ResolvedIn(s, key, METRIC_REQUESTS, REQUEST_WINDOWS[..i + 1]);
        assert more[|hits|] == Resolved(s, key)[|hits|] == q.value;
        var used := store.Get(CounterOf(q.value), f);
        if used.Err? {
          return hits, false, true;
        }
        if used.value >= q.value.limitValue {
          return hits, true, false;
        }
        hits := more;
      }
    }
    assert REQUEST_WINDOWS[..|REQUEST_WINDOWS|] == REQUEST_WINDOWS;
  }

  lemma ResolvedPrefix(s: Snapshot, key: ApiKey, i: nat)
    requires i < |REQUEST_WINDOWS|
    ensures var w := REQUEST_WINDOWS;
            var q := BestQuota(s.quotas, key, METRIC_REQUESTS, w[i]);
            ResolvedIn(s, key, METRIC_REQUESTS, w[..i + 1])
            == ResolvedIn(s, key, METRIC_REQUESTS, w[..i]) + (if q.Some? then [q.value] else [])
    ensures ResolvedIn(s, key, METRIC_REQUESTS, REQUEST_WINDOWS[..i + 1]) <= Resolved(s, key)
  {
    var w := REQUEST_WINDOWS;
    assert w[..i + 1][..i] == w[..i];
    ResolvedMonotone(s, key, METRIC_REQUESTS, w, i + 1);
  }

  lemma {:induction false} ResolvedMonotone(s: Snapshot, key: ApiKey, metric: string, windows: seq<string>, i: nat)
    requires i <= |windows|
    ensures ResolvedIn(s, key, metric, windows[..i]) <= ResolvedIn(s, key, metric, windows)
  {
    if i < |windows| {
      var n := |windows| - 1;
      assert windows[..n][..i] == windows[..i];
      ResolvedMonotone(s, key, metric, windows[..n], i);
    } else {
      assert windows[..i] == windows;
    }
  }

  /** Second pass: one increment per resolved counter. */
  method IncrementRequests(store: CounterStore, qs: seq<Quota>, f: CounterFaults) returns (failed: bool)
    requires CountersDiffer(qs)
    modifies store
    ensures ChargedAtMostOnce(old(store.used), store.used, qs)
    ensures !failed ==> ChargedOnce(old(store.used), store.used, qs)
    ensures Faultless(f) ==> !failed
  {
    for i := 0 to |qs|
      invariant ChargedOnce(old(store.used), store.used, qs[..i])
    {
      var c := CounterOf(qs[i]);
      assert !ChargedTo(qs[..i], c);
      ghost var before := store.used;
      var r := store.Incr(c, 1, f);
      forall d
        ensures ChargedTo(qs[..i + 1], d) <==> ChargedTo(qs[..i], d) || d == c
        ensures ChargedTo(qs[..i + 1], d) ==> ChargedTo(qs, d)
      {
        assert qs[..i + 1] == qs[..i] + [qs[i]];
        if ChargedTo(qs[..i], d) {
          var k :| 0 <= k < i && CounterOf(qs[..i][k]) == d;
          assert CounterOf(qs[..i + 1][k]) == d;
        }
        assert CounterOf(qs[..i + 1][i]) == c;
      }
      assert ChargedAtMostOnce(before, store.used, [qs[i]]) by {
        assert CounterOf([qs[i]][0]) == c;
      }
      if r.Err? {
        return true;
      }
    }
    assert qs[..|qs|] == qs;
    return false;
  }

  /** Denied means some window is used up, and costs nothing; admitted means every resolved counter went up by one. */
  method CheckAndIncrRequests(store: CounterStore?, s: Snapshot, key: ApiKey, f: CounterFaults)
    returns (denied: bool, failed: bool)
    modifies store
    ensures store == null ==> !denied && !failed
    ensures store != null ==>
              var qs, before := Resolved(s, key), old(store.used);
              && ChargedAtMostOnce(before, store.used, qs)
              && (denied ==> Exhausted(before, qs) && store.used == before)
              && (!denied && !failed ==> !Exhausted(before, qs) && ChargedOnce(before, store.used, qs))
              && (Faultless(f) ==> !failed && (denied <==> Exhausted(before, qs)))
    // the same in terms of the quotas: the one of each window that ranks first for the key, under its own scope id
    ensures store != null ==>
              var before := old(store.used);
              && (denied ==> IsUsedUp(before, s, key))
              && (!denied && !failed ==>
                    !IsUsedUp(before, s, key) &&
                    forall c :: CountIn(store.used, c) ==
                                CountIn(before, c) + if IsCharged(s, key, METRIC_REQUESTS, c) then 1 else 0)
  {
    ChargedIsCharged(s, key, METRIC_REQUESTS);
    if store == null {
      return false, false;
    }
    ExhaustedIsUsedUp(s, key, store.used);
    var hits;
    hits, denied, failed := CheckRequests(store, s, key, f);
    if denied || failed {
      return;
    }
    RequestWindowsDistinct();
    ResolvedCountersDistinct(s, key, METRIC_REQUESTS, REQUEST_WINDOWS);
    assert hits == ResolvedIn(s, key, METRIC_REQUESTS, REQUEST_WINDOWS);
    failed := IncrementRequests(store, hits, f);
  }

  // ----- token accounting after the call

  ghost predicate TokensCharged(before: map<CounterKey, int>, after: map<CounterKey, int>, qs: seq<Quota>,
                                tokens: int, f: CounterFaults) {
    forall c :: CountIn(after, c) ==
                CountIn(before, c) + if ChargedTo(qs, c) && f.incr(c) != FailsUnapplied then tokens else 0
  }

  lemma TokenStep(before: map<CounterKey, int>, during: map<CounterKey, int>, after: map<CounterKey, int>,
                  qs: seq<Quota>, q: Quota, tokens: int, f: CounterFaults)
    requires TokensCharged(before, during, qs, tokens, f) && !ChargedTo(qs, CounterOf(q))
    requires forall c :: CountIn(after, c) ==
                         CountIn(during, c) + if c == CounterOf(q) && f.incr(c) != FailsUnapplied then tokens else 0
    ensures TokensCharged(before, after, qs + [q], tokens, f)
  {
    forall c ensures ChargedTo(qs + [q], c) <==> ChargedTo(qs, c) || c == CounterOf(q) {
      if ChargedTo(qs, c) {
        var k :| 0 <= k < |qs| && CounterOf(qs[k]) == c;
        assert (qs + [q])[k] == qs[k];
      }
      assert (qs + [q])[|qs|] == q;
    }
  }

  lemma LastCounterIsNew(all: seq<Quota>, qs: seq<Quota>, q: Quota)
    requires all == qs + [q] && CountersDiffer(all)
    ensures !ChargedTo(qs, CounterOf(q))
  {
    assert all[|qs|] == q;
    forall i | 0 <= i < |qs| ensures CounterOf(qs[i]) != CounterOf(q) {
      assert all[i] == qs[i];
    }
  }

  /** The next window's token counter is one not charged yet. */
  lemma NextTokenCounter(s: Snapshot, key: ApiKey, i: nat)
    requires i < |REQUEST_WINDOWS|
    ensures var qs, q := ResolvedIn(s, key, METRIC_TOKENS, REQUEST_WINDOWS[..i]),
                         BestQuota(s.quotas, key, METRIC_TOKENS, REQUEST_WINDOWS[i]);
            ResolvedIn(s, key, METRIC_TOKENS, REQUEST_WINDOWS[..i + 1]) == (if q.Some? then qs + [q.value] else qs) &&
            (q.Some? ==> !ChargedTo(qs, CounterOf(q.value)) && q.value.metric == METRIC_TOKENS)
  {
    RequestWindowsDistinct();
    var windows := REQUEST_WINDOWS[..i + 1];
    assert windows[..i] == REQUEST_WINDOWS[..i] && windows[i] == REQUEST_WINDOWS[i];
    ResolvedCountersDistinct(s, key, METRIC_TOKENS, windows);
    var all, qs := ResolvedIn(s, key, METRIC_TOKENS, windows), ResolvedIn(s, key, METRIC_TOKENS, windows[..i]);
    var q := BestQuota(s.quotas, key, METRIC_TOKENS, windows[i]);
    if q.Some? {
      assert all == qs + [q.value];
      ResolvedQuotaMatches(s, key, METRIC_TOKENS, windows[i]);
      LastCounterIsNew(all, qs, q.value);
    }
  }

  method ChargeTokens(store: CounterStore, q: Quota, tokens: int, f: CounterFaults,
                      ghost before: map<CounterKey, int>, ghost qs: seq<Quota>)
    requires TokensCharged(before, store.used, qs, tokens, f) && !ChargedTo(qs, CounterOf(q))
    modifies store
    ensures TokensCharged(before, store.used, qs + [q], tokens, f)
    ensures forall c :: c != CounterOf(q) ==> CountIn(store.used, c) == CountIn(old(store.used), c)
  {
    ghost var during := store.used;
    var _ := store.Incr(CounterOf(q), tokens, f);
    TokenStep(before, during, store.used, qs, q, tokens, f);
  }

  /** Tokens are added to every resolved token counter, errors ignored; no request counter is touched. */
  method IncrTokens(store: CounterStore?, s: Snapshot, key: ApiKey, tokens: int, f: CounterFaults)
    modifies store
    ensures store != null ==>
              var qs, before := ResolvedIn(s, key, METRIC_TOKENS, REQUEST_WINDOWS), old(store.used);
              && (tokens <= 0 ==> store.used == before)
              && (tokens > 0 ==> TokensCharged(before, store.used, qs, tokens, f))
              && forall c: CounterKey :: c.metric == METRIC_REQUESTS ==> CountIn(store.used, c) == CountIn(before, c)
    // the quotas that count are those that rank first for the key, each under its own scope id
    ensures store != null && tokens > 0 ==>
              forall c :: CountIn(store.used, c) == CountIn(old(store.used), c) +
                          if IsCharged(s, key, METRIC_TOKENS, c) && f.incr(c) != FailsUnapplied then tokens else 0
  {
    if store == null || tokens <= 0 {
      return;
    }
    ChargedIsCharged(s, key, METRIC_TOKENS);
    ghost var before := store.used;
    assert METRIC_TOKENS[0] != METRIC_REQUESTS[0];
    for i := 0 to |REQUEST_WINDOWS|
      invariant TokensCharged(before, store.used, ResolvedIn(s, key, METRIC_TOKENS, REQUEST_WINDOWS[..i]), tokens, f)
      invariant forall c: CounterKey :: c.metric == METRIC_REQUESTS ==> CountIn(store.used, c) == CountIn(before, c)
    {
      ghost var qs := ResolvedIn(s, key, METRIC_TOKENS, REQUEST_WINDOWS[..i]);
      NextTokenCounter(s, key, i);
      var q := ResolveQuota(s, key, METRIC_TOKENS, REQUEST_WINDOWS[i]);
      if q.Some? {
        ChargeTokens(store, q.value, tokens, f, before, qs);
      }
    }
    assert REQUEST_WINDOWS[..|REQUEST_WINDOWS|] == REQUEST_WINDOWS;
  }

  // ----- the gates in order

  datatype Verdict = Allow | Deny | Fail

  /** The verdicts of everything before the quota gate. */
  datatype Gates = Gates(policy: Verdict, hooks: seq<Verdict>, wasm: Option<Verdict>)

  predicate AllAllow(g: Gates) {
    && g.policy == Allow
    && (forall v :: v in g.hooks ==> v == Allow)
    && (g.wasm.Some? ==> g.wasm.value == Allow)
  }

  /** First deny or error wins. */
  method RunHooks(hooks: seq<Verdict>) returns (v: Verdict)
    ensures v == Allow <==> forall h :: h in hooks ==> h == Allow
    ensures v != Allow ==> exists i :: 0 <= i < |hooks| && hooks[i] == v && forall j :: 0 <= j < i ==> hooks[j] == Allow
  {
    for i := 0 to |hooks|
      invariant forall j :: 0 <= j < i ==> hooks[j] == Allow
    {
      if hooks[i] != Allow {
        assert hooks[i] in hooks;
        return hooks[i];
      }
    }
    return Allow;
  }

  /**
   A request is charged all or nothing. A call stopped by any gate other than the quota itself changes no counter;
   without counter errors it passes exactly when every gate allows it and no resolved window is used up, and then each
   resolved counter is one higher; with errors every counter rises by at most one.
   */
  method GateCall(s: Snapshot, key: ApiKey, gates: Gates, store: CounterStore?, f: CounterFaults) returns (ok: bool)
    modifies store
    ensures ok ==> Allows(s, key.organizationId) && AllAllow(gates)
    ensures store == null ==> (ok <==> Allows(s, key.organizationId) && AllAllow(gates))
    ensures store != null ==>
              var qs, before := Resolved(s, key), old(store.used);
              && ChargedAtMostOnce(before, store.used, qs)
              && (!(Allows(s, key.organizationId) && AllAllow(gates)) ==> store.used == before)
              && (ok ==> ChargedOnce(before, store.used, qs) && !Exhausted(before, qs))
              && (Faultless(f) ==>
                    && (ok <==> Allows(s, key.organizationId) && AllAllow(gates) && !Exhausted(before, qs))
                    && (!ok ==> store.used == before))
    ensures store != null && ok ==>
              !IsUsedUp(old(store.used), s, key) &&
              forall c :: CountIn(store.used, c) ==
                          CountIn(old(store.used), c) + if IsCharged(s, key, METRIC_REQUESTS, c) then 1 else 0
    ensures store != null && Faultless(f) && !ok && Allows(s, key.organizationId) && AllAllow(gates) ==>
              IsUsedUp(old(store.used), s, key)
  {
    var allowed := AllowsOrganization(s, key.organizationId);
    if !allowed {
      return false;
    }
    if gates.policy != Allow {
      return false;
    }
    var v := RunHooks(gates.hooks);
    if v != Allow {
      return false;
    }
    if gates.wasm.Some? && gates.wasm.value != Allow {
      return false;
    }
    var denied, failed := CheckAndIncrRequests(store, s, key, f);
    ok := !denied && !failed;
  }
}
