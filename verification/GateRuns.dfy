/** The quota gate of one request, when nothing comes in between, is a run of the admission system. */
module GateRuns {
  import opened Collections
  import opened Snapshot
  import opened Runs
  import opened QuotaAdmission
  import opened Gate

  function CountersOf(qs: seq<Quota>): seq<CounterKey> {
    seq(|qs|, i requires 0 <= i < |qs| => CounterOf(qs[i]))
  }

  /** The system checks the counters against the limits of these quotas. */
  ghost predicate HasLimits(w: Setting, qs: seq<Quota>) {
    w.cap >= 1 && forall q <- qs :: w.limits(CounterOf(q)) == q.limitValue
  }

  function Inside(used: map<CounterKey, int>, hits: seq<CounterKey>, phase: Phase): State {
    State(used, map[0 := Request(hits, phase)])
  }

  lemma StepTo(w: Setting, from: State, s: State, t: State)
    requires Reaches(Step(w), from, s) && Next(w, s, t)
    ensures Reaches(Step(w), from, t)
  {
    ReachesStep(Step(w), from, s, t);
  }

  /** The first k counters pass their checks. */
  lemma {:induction false} ChecksPass(w: Setting, used: map<CounterKey, int>, hits: seq<CounterKey>, k: nat)
    requires w.cap >= 1 && Distinct(hits) && k <= |hits|
    requires forall i :: 0 <= i < k ==> CountIn(used, hits[i]) < w.limits(hits[i])
    ensures Reaches(Step(w), State(used, map[]), Inside(used, hits, Checking(k)))
  {
    var s := State(used, map[]);
    if k == 0 {
      ReachesSelf(Step(w), s);
      assert ArrivesWith(w, s, Inside(used, hits, Checking(0)), 0, hits);
      assert Arrives(w, s, Inside(used, hits, Checking(0)), 0);
      StepTo(w, s, s, Inside(used, hits, Checking(0)));
    } else {
      ChecksPass(w, used, hits, k - 1);
      var a, b := Inside(used, hits, Checking(k - 1)), Inside(used, hits, Checking(k));
      assert b.inside == a.inside[0 := a.inside[0].(phase := Checking(k))];
      assert Checks(w, a, b, 0);
      StepTo(w, s, a, b);
    }
  }

  /** All counters pass and the first k are incremented. */
  lemma {:induction false} Charges(w: Setting, used: map<CounterKey, int>, hits: seq<CounterKey>, k: nat)
    returns (after: map<CounterKey, int>)
    requires w.cap >= 1 && Distinct(hits) && k <= |hits|
    requires forall i :: 0 <= i < |hits| ==> CountIn(used, hits[i]) < w.limits(hits[i])
    ensures Reaches(Step(w), State(used, map[]), Inside(after, hits, Incrementing(k)))
    ensures forall c :: CountIn(after, c) == CountIn(used, c) + if c in hits[..k] then 1 else 0
  {
    if k == 0 {
      ChecksEnd(w, used, hits);
      after := used;
    } else {
      var before := Charges(w, used, hits, k - 1);
      after := before[hits[k - 1] := CountIn(before, hits[k - 1]) + 1];
      ChargesOne(w, State(used, map[]), before, after, hits, k);
      OneMoreCharged(used, before, after, hits, k);
    }
  }

  lemma ChecksEnd(w: Setting, used: map<CounterKey, int>, hits: seq<CounterKey>)
    requires w.cap >= 1 && Distinct(hits)
    requires forall i :: 0 <= i < |hits| ==> CountIn(used, hits[i]) < w.limits(hits[i])
    ensures Reaches(Step(w), State(used, map[]), Inside(used, hits, Incrementing(0)))
  {
    ChecksPass(w, used, hits, |hits|);
    var a, b := Inside(used, hits, Checking(|hits|)), Inside(used, hits, Incrementing(0));
    assert b.inside == a.inside[0 := a.inside[0].(phase := Incrementing(0))];
    assert Checks(w, a, b, 0);
    StepTo(w, State(used, map[]), a, b);
  }

  lemma OneMoreCharged(used: map<CounterKey, int>, before: map<CounterKey, int>, after: map<CounterKey, int>,
                       hits: seq<CounterKey>, k: nat)
    requires Distinct(hits) && 0 < k <= |hits|
    requires after == before[hits[k - 1] := CountIn(before, hits[k - 1]) + 1]
    requires forall c :: CountIn(before, c) == CountIn(used, c) + if c in hits[..k - 1] then 1 else 0
    ensures forall c :: CountIn(after, c) == CountIn(used, c) + if c in hits[..k] then 1 else 0
  {
    assert hits[..k] == hits[..k - 1] + [hits[k - 1]];
    assert hits[k - 1] !in hits[..k - 1];
  }

  lemma ChargesOne(w: Setting, from: State, before: map<CounterKey, int>, after: map<CounterKey, int>,
                   hits: seq<CounterKey>, k: nat)
    requires 0 < k <= |hits| && after == before[hits[k - 1] := CountIn(before, hits[k - 1]) + 1]
    requires Reaches(Step(w), from, Inside(before, hits, Incrementing(k - 1)))
    ensures Reaches(Step(w), from, Inside(after, hits, Incrementing(k)))
  {
    var a, b := Inside(before, hits, Incrementing(k - 1)), Inside(after, hits, Incrementing(k));
    assert b == Moved(Incremented(a, hits[k - 1]), 0, Incrementing(k));
    assert Increments(a, b, 0);
    StepTo(w, from, a, b);
  }

  lemma Departs(w: Setting, from: State, used: map<CounterKey, int>, hits: seq<CounterKey>, phase: Phase)
    requires Reaches(Step(w), from, Inside(used, hits, phase))
    ensures Reaches(Step(w), from, State(used, map[]))
  {
    var a, b := Inside(used, hits, phase), State(used, map[]);
    assert a.inside - {0} == map[];
    assert Leaves(a, b, 0);
    StepTo(w, from, a, b);
  }

  lemma ChargedMeansHit(qs: seq<Quota>, c: CounterKey)
    ensures ChargedTo(qs, c) <==> c in CountersOf(qs)
  {
    if i :| 0 <= i < |qs| && CounterOf(qs[i]) == c {
      assert CountersOf(qs)[i] == c;
    }
  }

  /** An admitted request: what the gate leaves in the counters, a run of the system leaves too. */
  lemma AdmissionIsRun(w: Setting, qs: seq<Quota>, before: map<CounterKey, int>, after: map<CounterKey, int>)
    requires HasLimits(w, qs) && CountersDiffer(qs) && !Exhausted(before, qs) && ChargedOnce(before, after, qs)
    ensures exists t :: Reaches(Step(w), State(before, map[]), t) && t.inside == map[] &&
                        forall c :: Count(t, c) == CountIn(after, c)
  {
    var hits := CountersOf(qs);
    forall i | 0 <= i < |hits| ensures CountIn(before, hits[i]) < w.limits(hits[i]) {
      assert qs[i] in qs && hits[i] == CounterOf(qs[i]);
    }
    var reached := Charges(w, before, hits, |hits|);
    Departs(w, State(before, map[]), reached, hits, Incrementing(|hits|));
    assert hits[..|hits|] == hits;
    forall c ensures CountIn(reached, c) == CountIn(after, c) {
      ChargedMeansHit(qs, c);
    }
    assert State(reached, map[]).inside == map[];
  }

  /** A denied one: the system refuses it at the first counter that is used up, and charges nothing. */
  lemma DenialIsRun(w: Setting, qs: seq<Quota>, used: map<CounterKey, int>, k: nat)
    requires HasLimits(w, qs) && CountersDiffer(qs) && k < |qs| && CountIn(used, CounterOf(qs[k])) >= qs[k].limitValue
    requires !Exhausted(used, qs[..k])
    ensures Reaches(Step(w), State(used, map[]), Inside(used, CountersOf(qs), Checking(k)))
    ensures Next(w, Inside(used, CountersOf(qs), Checking(k)), State(used, map[]))
    ensures forall t :: Checks(w, Inside(used, CountersOf(qs), Checking(k)), t, 0) ==> t == State(used, map[])
  {
    var hits := CountersOf(qs);
    forall i | 0 <= i < k ensures CountIn(used, hits[i]) < w.limits(hits[i]) {
      assert qs[i] in qs && hits[i] == CounterOf(qs[i]) && qs[..k][i] == qs[i];
    }
    ChecksPass(w, used, hits, k);
    var a, b := Inside(used, hits, Checking(k)), State(used, map[]);
    assert qs[k] in qs && w.limits(hits[k]) == qs[k].limitValue;
    assert a.inside - {0} == map[];
    assert Checks(w, a, b, 0);
  }
}
