/**
 The tag quota hook: increment first, compare, roll back when over the limit. Any interleaving of requests is a run of
 single-counter steps; rollbacks may be lost and increments may fail.
 */
module TagQuota {
  import opened Collections
  import opened Snapshot
  import opened QuotaAdmission
  import opened Gate
  import opened Runs

  datatype Principal = Principal(organizationId: string, projectId: string)

  datatype Config = Config(tagKey: string, limit: int, window: string, scopeParent: string)

  /** Defaults of New. */
  function WithDefaults(c: Config): (r: Config)
    ensures r.limit > 0 && r.tagKey != "" && r.window != "" && r.scopeParent != ""
    ensures (c.tagKey != "" ==> r.tagKey == c.tagKey) && (c.tagKey == "" ==> r.tagKey == "end-user-id")
    ensures (c.limit > 0 ==> r.limit == c.limit) && (c.limit <= 0 ==> r.limit == 100)
    ensures (c.window != "" ==> r.window == c.window) && (c.window == "" ==> r.window == WINDOW_TOTAL)
    ensures c.scopeParent != "" ==> r.scopeParent == c.scopeParent
    ensures c.scopeParent == "" ==> r.scopeParent == "project"
  {
    Config(if c.tagKey == "" then "end-user-id" else c.tagKey, if c.limit <= 0 then 100 else c.limit,
           if c.window == "" then WINDOW_TOTAL else c.window, if c.scopeParent == "" then "project" else c.scopeParent)
  }

  // ----- one counter under concurrency

  /**
   admitted: requests let through; over: denied and still to roll back; denied: rolled back or lost;
   stray: increments nobody will take back (a lost rollback, or a failed increment that took effect).
   */
  datatype Tally = Tally(counter: int, admitted: nat, over: nat, denied: nat, stray: nat, failures: nat)

  const START := Tally(0, 0, 0, 0, 0, 0)

  /** Incr answers with the new value, which alone decides. */
  function AfterIncr(limit: int, s: Tally): Tally {
    var used := s.counter + 1;
    if used > limit then s.(counter := used, over := s.over + 1)
    else s.(counter := used, admitted := s.admitted + 1)
  }

  function AfterFailedIncr(s: Tally, applied: bool): Tally {
    s.(failures := s.failures + 1, counter := s.counter + (if applied then 1 else 0),
       stray := s.stray + (if applied then 1 else 0))
  }

  function AfterRollback(s: Tally, lost: bool): Tally
    requires s.over > 0
  {
    s.(over := s.over - 1, denied := s.denied + 1, counter := s.counter - (if lost then 0 else 1),
       stray := s.stray + (if lost then 1 else 0))
  }

  ghost predicate Next(limit: int, s: Tally, t: Tally) {
    || t == AfterIncr(limit, s)
    || (exists applied :: t == AfterFailedIncr(s, applied))
    || (s.over > 0 && exists lost :: t == AfterRollback(s, lost))
  }

  ghost function Step(limit: int): (Tally, Tally) -> bool {
    (s, t) => Next(limit, s, t)
  }

  ghost predicate Inv(limit: int, s: Tally) {
    && s.counter == s.admitted + s.over + s.stray
    && s.admitted <= limit
    && (s.over + s.denied > 0 && s.failures == 0 ==> s.admitted == limit)
    && (s.over == s.denied == s.failures == 0 ==> s.stray == 0)
  }

  lemma {:induction false} RunKeepsInv(limit: int, run: seq<Tally>, i: nat)
    requires limit > 0 && IsRun(Step(limit), run) && run[0] == START && i < |run|
    ensures Inv(limit, run[i])
  {
    if i > 0 {
      RunKeepsInv(limit, run, i - 1);
      assert Step(limit)(run[i - 1], run[i]);
    }
  }

  /**
   Never over-admits: under any interleaving, lost rollbacks and failed increments included, the counter covers what
   was admitted and what still awaits its rollback, and admissions stay within the limit.
   */
  lemma NeverOverAdmits(limit: int, run: seq<Tally>, i: nat)
    requires limit > 0 && IsRun(Step(limit), run) && run[0] == START && i < |run|
    ensures run[i].counter >= run[i].admitted + run[i].over && run[i].admitted <= limit
  {
    RunKeepsInv(limit, run, i);
  }

  /** Once no rollback is in flight and nothing was lost, the counter is exact. */
  lemma CounterIsExactAtRest(limit: int, run: seq<Tally>, i: nat)
    requires limit > 0 && IsRun(Step(limit), run) && run[0] == START && i < |run|
    requires run[i].over == 0 && run[i].stray == 0
    ensures run[i].counter == run[i].admitted
  {
    RunKeepsInv(limit, run, i);
  }

  /** Nor under-admits: without failed increments exactly the first `limit` decided requests are admitted. */
  lemma AdmitsUpToLimit(limit: int, run: seq<Tally>, i: nat)
    requires limit > 0 && IsRun(Step(limit), run) && run[0] == START && i < |run|
    requires run[i].failures == 0
    ensures var decided := run[i].admitted + run[i].over + run[i].denied;
            run[i].admitted == if decided <= limit then decided else limit
  {
    RunKeepsInv(limit, run, i);
  }

  // ----- the hook itself

  function ParentScope(c: Config, p: Principal): (string, string) {
    if c.scopeParent != "organization" && p.projectId != "" then ("project", p.projectId)
    else ("organization", p.organizationId)
  }

  function TagCounter(c: Config, p: Principal, value: string): CounterKey {
    var (parentType, parentId) := ParentScope(c, p);
    CounterKey("tag", parentType + ":" + parentId + ":" + c.tagKey + ":" + value, "requests", c.window)
  }

  /** A tag is counted per project, or per organization when that is configured or there is no project. */
  lemma TagCounterIs(c: Config, p: Principal, value: string)
    ensures var k := TagCounter(c, p, value);
            && k.scopeType == "tag" && k.metric == "requests" && k.window == c.window
            && (c.scopeParent != "organization" && p.projectId != "" ==>
                  k.scopeId == "project:" + p.projectId + ":" + c.tagKey + ":" + value)
            && (c.scopeParent == "organization" || p.projectId == "" ==>
                  k.scopeId == "organization:" + p.organizationId + ":" + c.tagKey + ":" + value)
  {
    assert "project" + ":" == "project:" && "organization" + ":" == "organization:";
  }

  predicate Tagged(c: Config, p: Principal, tags: map<string, string>) {
    c.tagKey in tags && tags[c.tagKey] != "" && ParentScope(c, p).1 != ""
  }

  /** The tally after one call with nobody in between, and what the call is told. */
  function AfterOneCall(limit: int, s: Tally, incr: IncrFault, rollback: IncrFault): Tally {
    if incr != NoFault then AfterFailedIncr(s, incr == FailsApplied)
    else
      var t := AfterIncr(limit, s);
      if s.counter + 1 > limit then AfterRollback(t, rollback == FailsUnapplied) else t
  }

  function VerdictOf(limit: int, s: Tally, incr: IncrFault): Verdict {
    if incr != NoFault then Fail else if s.counter + 1 > limit then Deny else Allow
  }

  /** It is a run of the system above, and counts the call under what it is told. */
  lemma CallIsRun(limit: int, s: Tally, incr: IncrFault, rollback: IncrFault)
    ensures var t, v := AfterOneCall(limit, s, incr, rollback), VerdictOf(limit, s, incr);
            && Reaches(Step(limit), s, t)
            && t.over == s.over
            && t.admitted == s.admitted + (if v == Allow then 1 else 0)
            && t.denied == s.denied + (if v == Deny then 1 else 0)
            && t.failures == s.failures + (if v == Fail then 1 else 0)
  {
    var t, mid := AfterOneCall(limit, s, incr, rollback), AfterIncr(limit, s);
    ReachesSelf(Step(limit), s);
    if incr != NoFault {
      assert t == AfterFailedIncr(s, incr == FailsApplied);
      ReachesStep(Step(limit), s, s, t);
    } else {
      ReachesStep(Step(limit), s, s, mid);
      if s.counter + 1 > limit {
        assert t == AfterRollback(mid, rollback == FailsUnapplied);
        ReachesStep(Step(limit), s, mid, t);
      }
    }
  }

  /** A call is counted when it carries the tag and has a project or an organization to be counted for. */
  lemma TaggedIff(c: Config, p: Principal, tags: map<string, string>)
    ensures Tagged(c, p, tags) <==>
            && c.tagKey in tags && tags[c.tagKey] != ""
            && (p.organizationId != "" || (p.projectId != "" && c.scopeParent != "organization"))
  {
  }

  /**
   BeforeCall with nobody in between: without a counter store, or untagged, calls pass untouched; a tagged call passes
   exactly while the counter is below the limit, and a denied one leaves the counter as it found it, unless its rollback
   fails unapplied.
   */
  method BeforeCall(store: CounterStore?, cfg: Config, p: Principal, tags: map<string, string>,
                    incr: CounterFaults, rollback: CounterFaults)
    returns (d: Verdict)
    modifies store
    ensures store == null || !Tagged(cfg, p, tags) ==> d == Allow
    ensures store != null && !Tagged(cfg, p, tags) ==> store.used == old(store.used)
    ensures store != null && Tagged(cfg, p, tags) ==>
              var c := TagCounter(cfg, p, tags[cfg.tagKey]);
              var was := old(store.Count(c));
              && (forall k :: k != c ==> store.Count(k) == old(store.Count(k)))
              && (d == Fail <==> incr.incr(c) != NoFault)
              && (d == Fail ==> store.Count(c) == was + if incr.incr(c) == FailsApplied then 1 else 0)
              && (d == Allow ==> was < cfg.limit && store.Count(c) == was + 1)
              && (d == Deny ==> was >= cfg.limit
                                && store.Count(c) == was + if rollback.incr(c) == FailsUnapplied then 1 else 0)
              && forall s: Tally :: s.counter == was ==>
                   (d, store.Count(c)) == (VerdictOf(cfg.limit, s, incr.incr(c)),
                                           AfterOneCall(cfg.limit, s, incr.incr(c), rollback.incr(c)).counter)
  {
    if store == null {
      return Allow;
    }
    if cfg.tagKey !in tags || tags[cfg.tagKey] == "" || ParentScope(cfg, p).1 == "" {
      return Allow;
    }
    var c := TagCounter(cfg, p, tags[cfg.tagKey]);
    var used := store.Incr(c, 1, incr);
    if used.Err? {
      return Fail;
    }
    if used.value > cfg.limit {
      var _ := store.Incr(c, -1, rollback);
      return Deny;
    }
    return Allow;
  }

  // ----- the hook among the gates of a call

  /** Verdicts of the other gates: before the hook and after it. */
  datatype OtherGates = OtherGates(policy: Verdict, earlier: seq<Verdict>, later: seq<Verdict>, wasm: Option<Verdict>)

  predicate ReachesHook(s: Snapshot, organizationId: string, g: OtherGates) {
    Allows(s, organizationId) && g.policy == Allow && forall v :: v in g.earlier ==> v == Allow
  }

  predicate PassesRest(g: OtherGates) {
    (forall v :: v in g.later ==> v == Allow) && (g.wasm.Some? ==> g.wasm.value == Allow)
  }

  function PrincipalOf(key: ApiKey): Principal { Principal(key.organizationId, key.projectId) }

  /** Quotas are never kept in tag counters. */
  lemma {:induction false} NotATagCounter(s: Snapshot, key: ApiKey, windows: seq<string>)
    requires "" !in windows
    ensures forall q :: q in ResolvedIn(s, key, METRIC_REQUESTS, windows) ==> q.scopeType != "tag"
  {
    if windows != [] {
      var n := |windows| - 1;
      NotATagCounter(s, key, windows[..n]);
      FirstMaxIsFirstMax(s.quotas, RankFor(key, METRIC_REQUESTS, windows[n]));
    }
  }

  ghost predicate OthersAlike(c: CounterKey, before: map<CounterKey, int>, after: map<CounterKey, int>) {
    forall k :: k != c ==> CountIn(after, k) == CountIn(before, k)
  }

  ghost predicate OthersChargedOnce(c: CounterKey, before: map<CounterKey, int>, after: map<CounterKey, int>,
                                    qs: seq<Quota>) {
    forall k :: k != c ==> CountIn(after, k) == CountIn(before, k) + if ChargedTo(qs, k) then 1 else 0
  }

  ghost predicate OthersAtMostOnce(c: CounterKey, before: map<CounterKey, int>, after: map<CounterKey, int>,
                                   qs: seq<Quota>) {
    forall k :: k != c ==>
      CountIn(before, k) <= CountIn(after, k) <= CountIn(before, k) + if ChargedTo(qs, k) then 1 else 0
  }

  /** What the tag counter holds decides nothing about the quotas. */
  lemma QuotasDoNotSeeTag(c: CounterKey, before: map<CounterKey, int>, during: map<CounterKey, int>, qs: seq<Quota>)
    requires OthersAlike(c, before, during) && !ChargedTo(qs, c)
    ensures Exhausted(before, qs) <==> Exhausted(during, qs)
  {
    forall i | 0 <= i < |qs| ensures CountIn(before, CounterOf(qs[i])) == CountIn(during, CounterOf(qs[i])) {
    }
  }

  /**
   A call through all gates, the hook among them. Quota counters are still charged all or nothing, but the tag counter
   is not: without counter errors it goes up exactly when the call reaches the hook below the limit, so a call that a
   later gate or an exhausted quota stops has been charged to its tag.
   */
  method GateTaggedCall(s: Snapshot, key: ApiKey, gates: OtherGates, store: CounterStore, cfg: Config,
                        tags: map<string, string>, incr: CounterFaults, rollback: CounterFaults, f: CounterFaults)
    returns (ok: bool)
    modifies store
    ensures Tagged(cfg, PrincipalOf(key), tags) ==>
              var c, qs := TagCounter(cfg, PrincipalOf(key), tags[cfg.tagKey]), Resolved(s, key);
              var before, after := old(store.used), store.used;
              && OthersAtMostOnce(c, before, after, qs)
              && CountIn(before, c) <= CountIn(after, c) <= CountIn(before, c) + 1
              && (ok ==> OthersChargedOnce(c, before, after, qs) && CountIn(after, c) == CountIn(before, c) + 1)
              && (Faultless(incr) && Faultless(rollback) && Faultless(f) ==>
                    var charged := ReachesHook(s, key.organizationId, gates) && CountIn(before, c) < cfg.limit;
                    && (ok <==> charged && PassesRest(gates) && !Exhausted(before, qs))
                    && CountIn(after, c) == CountIn(before, c) + (if charged then 1 else 0)
                    && (!ok ==> OthersAlike(c, before, after)))
    ensures !Tagged(cfg, PrincipalOf(key), tags) ==>
              var qs, before := Resolved(s, key), old(store.used);
              && ChargedAtMostOnce(before, store.used, qs)
              && (ok ==> ChargedOnce(before, store.used, qs))
              && (Faultless(f) ==>
                    && (ok <==>
                          ReachesHook(s, key.organizationId, gates) && PassesRest(gates) && !Exhausted(before, qs))
                    && (!ok ==> store.used == before))
  {
    RequestWindowsDistinct();
    NotATagCounter(s, key, REQUEST_WINDOWS);
    var allowed := AllowsOrganization(s, key.organizationId);
    if !allowed || gates.policy != Allow {
      return false;
    }
    var first := RunHooks(gates.earlier);
    if first != Allow {
      return false;
    }
    var tag := BeforeCall(store, cfg, PrincipalOf(key), tags, incr, rollback);
    if Tagged(cfg, PrincipalOf(key), tags) {
      ghost var c, before, during := TagCounter(cfg, PrincipalOf(key), tags[cfg.tagKey]), old(store.used), store.used;
      assert forall k :: CountIn(during, k) == store.Count(k) && CountIn(before, k) == old(store.Count(k));
      QuotasDoNotSeeTag(c, before, during, Resolved(s, key));
    }
    if tag != Allow {
      return false;
    }
    ok := GateCall(s, key, Gates(gates.policy, gates.later, gates.wasm), store, f);
  }
}
