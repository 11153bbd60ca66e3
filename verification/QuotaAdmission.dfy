/**
 Request quotas under concurrency: every request first reads all its counters and then increments them, so checks of
 different requests interleave. The overshoot is bounded by the number of requests inside the section.
 */
module QuotaAdmission {
  import opened Runs

  datatype CounterKey = CounterKey(scopeType: string, scopeId: string, metric: string, window: string)

  /** Checking(k): the first k counters passed. Incrementing(k): all passed, the first k incremented. */
  datatype Phase = Checking(k: nat) | Incrementing(k: nat)

  datatype Request = Request(hits: seq<CounterKey>, phase: Phase)

  datatype State = State(counters: map<CounterKey, int>, inside: map<nat, Request>)

  /** The limit of every counter, and how many requests may be inside at once. */
  datatype Setting = Setting(limits: CounterKey -> int, cap: nat)

  /** A counter that was never written reads 0. */
  function CountIn(counters: map<CounterKey, int>, c: CounterKey): int {
    if c in counters then counters[c] else 0
  }

  function Count(s: State, c: CounterKey): int {
    CountIn(s.counters, c)
  }

  predicate Distinct(hits: seq<CounterKey>) {
    forall i, j :: 0 <= i < j < |hits| ==> hits[i] != hits[j]
  }

  function Incremented(s: State, c: CounterKey): State {
    s.(counters := s.counters[c := Count(s, c) + 1])
  }

  function Moved(s: State, r: nat, phase: Phase): State
    requires r in s.inside
  {
    s.(inside := s.inside[r := s.inside[r].(phase := phase)])
  }

  function Gone(s: State, r: nat): State {
    s.(inside := s.inside - {r})
  }

  ghost predicate ArrivesWith(w: Setting, s: State, t: State, r: nat, hits: seq<CounterKey>) {
    && r !in s.inside && |s.inside| < w.cap && Distinct(hits)
    && t == s.(inside := s.inside[r := Request(hits, Checking(0))])
  }

  ghost predicate Arrives(w: Setting, s: State, t: State, r: nat) {
    exists hits :: ArrivesWith(w, s, t, r, hits)
  }

  /** Reads one counter: at the limit the request is denied, below it the check passes. */
  ghost predicate Checks(w: Setting, s: State, t: State, r: nat) {
    && r in s.inside && s.inside[r].phase.Checking?
    && var Request(hits, Checking(k)) := s.inside[r];
       if k >= |hits| then t == Moved(s, r, Incrementing(0))
       else if Count(s, hits[k]) >= w.limits(hits[k]) then t == Gone(s, r)
       else t == Moved(s, r, Checking(k + 1))
  }

  /** Increments one counter; when the acknowledgement is lost the request leaves with an error. */
  ghost predicate Increments(s: State, t: State, r: nat) {
    && r in s.inside && s.inside[r].phase.Incrementing?
    && var Request(hits, Incrementing(k)) := s.inside[r];
       && k < |hits|
       && (t == Moved(Incremented(s, hits[k]), r, Incrementing(k + 1)) || t == Gone(Incremented(s, hits[k]), r))
  }

  /** Done, or stopped by a counter error. */
  ghost predicate Leaves(s: State, t: State, r: nat) {
    r in s.inside && t == Gone(s, r)
  }

  ghost predicate Next(w: Setting, s: State, t: State) {
    exists r :: Arrives(w, s, t, r) || Checks(w, s, t, r) || Increments(s, t, r) || Leaves(s, t, r)
  }

  ghost function Step(w: Setting): (State, State) -> bool {
    (s, t) => Next(w, s, t)
  }

  // ----- the bound

  /** The request has passed the check of c and not yet incremented it. */
  predicate Owes(req: Request, c: CounterKey) {
    match req.phase
    case Checking(k) => exists j :: 0 <= j < |req.hits| && j < k && req.hits[j] == c
    case Incrementing(k) => exists j :: k <= j < |req.hits| && req.hits[j] == c
  }

  function Owing(s: State, c: CounterKey): set<nat> {
    set r | r in s.inside && Owes(s.inside[r], c)
  }

  ghost predicate Bounded(w: Setting, s: State, c: CounterKey, initial: int) {
    || Count(s, c) + |Owing(s, c)| <= initial
    || Count(s, c) + |Owing(s, c)| <= w.limits(c) - 1 + w.cap
  }

  ghost predicate WellFormed(w: Setting, s: State) {
    && |s.inside| <= w.cap
    && (forall r :: r in s.inside ==>
          Distinct(s.inside[r].hits) && (s.inside[r].phase.Checking? ==> s.inside[r].phase.k <= |s.inside[r].hits|))
  }

  lemma SubsetSize<T>(a: set<T>, b: set<T>)
    requires a <= b
    ensures |a| <= |b|
  {
    assert b == a + (b - a);
  }

  lemma OwingAtMostInside(s: State, c: CounterKey)
    ensures |Owing(s, c)| <= |s.inside|
  {
    SubsetSize(Owing(s, c), s.inside.Keys);
  }

  lemma ArrivalKeeps(w: Setting, s: State, t: State, c: CounterKey, initial: int, r: nat, hits: seq<CounterKey>)
    requires WellFormed(w, s) && Bounded(w, s, c, initial) && ArrivesWith(w, s, t, r, hits)
    ensures WellFormed(w, t) && Bounded(w, t, c, initial)
  {
    assert Owing(t, c) == Owing(s, c);
  }

  lemma LeavingKeeps(w: Setting, s: State, t: State, c: CounterKey, initial: int, r: nat)
    requires WellFormed(w, s) && Bounded(w, s, c, initial) && Leaves(s, t, r)
    ensures WellFormed(w, t) && Bounded(w, t, c, initial)
  {
    SubsetSize(Owing(t, c), Owing(s, c));
    SubsetSize(t.inside.Keys, s.inside.Keys);
  }

  lemma CheckKeeps(w: Setting, s: State, t: State, c: CounterKey, initial: int, r: nat)
    requires WellFormed(w, s) && Bounded(w, s, c, initial) && Checks(w, s, t, r)
    ensures WellFormed(w, t) && Bounded(w, t, c, initial)
  {
    var Request(hits, Checking(k)) := s.inside[r];
    if t == Gone(s, r) {
      LeavingKeeps(w, s, t, c, initial, r);
    } else {
      assert t.inside.Keys == s.inside.Keys;
      if k < |hits| && hits[k] == c {
        OwingAtMostInside(t, c);
      } else {
        assert Owing(t, c) == Owing(s, c);
      }
    }
  }

  lemma OwesUntilIncremented(hits: seq<CounterKey>, k: nat, c: CounterKey)
    requires k < |hits| && Distinct(hits)
    ensures Owes(Request(hits, Incrementing(k)), hits[k])
    ensures !Owes(Request(hits, Incrementing(k + 1)), hits[k])
    ensures c != hits[k] ==> Owes(Request(hits, Incrementing(k)), c) == Owes(Request(hits, Incrementing(k + 1)), c)
  {
    if c != hits[k] && Owes(Request(hits, Incrementing(k)), c) {
      var j :| k <= j < |hits| && hits[j] == c;
      assert k + 1 <= j;
    }
  }

  /** An increment settles what the request owed that counter, and nothing else. */
  lemma IncrementOwing(w: Setting, s: State, t: State, c: CounterKey, r: nat)
    requires WellFormed(w, s) && Increments(s, t, r)
    ensures Owing(t, c) <= Owing(s, c)
    ensures s.inside[r].hits[s.inside[r].phase.k] == c ==> r in Owing(s, c) && r !in Owing(t, c)
  {
    var Request(hits, Incrementing(k)) := s.inside[r];
    OwesUntilIncremented(hits, k, c);
    forall x | x in Owing(t, c)
      ensures x in Owing(s, c)
    {
      if x == r {
        assert t.inside[r] == Request(hits, Incrementing(k + 1));
      } else {
        assert t.inside[x] == s.inside[x];
      }
    }
  }

  lemma IncrementKeepsForm(w: Setting, s: State, t: State, r: nat)
    requires WellFormed(w, s) && Increments(s, t, r)
    ensures WellFormed(w, t)
  {
    SubsetSize(t.inside.Keys, s.inside.Keys);
  }

  lemma IncrementKeeps(w: Setting, s: State, t: State, c: CounterKey, initial: int, r: nat)
    requires WellFormed(w, s) && Bounded(w, s, c, initial) && Increments(s, t, r)
    ensures WellFormed(w, t) && Bounded(w, t, c, initial)
  {
    IncrementKeepsForm(w, s, t, r);
    IncrementOwing(w, s, t, c, r);
    var hit := s.inside[r].hits[s.inside[r].phase.k];
    if hit == c {
      assert Count(t, c) == Count(s, c) + 1;
      SubsetSize(Owing(t, c), Owing(s, c) - {r});
    } else {
      assert Count(t, c) == Count(s, c);
      SubsetSize(Owing(t, c), Owing(s, c));
    }
  }

  lemma StepKeeps(w: Setting, s: State, t: State, c: CounterKey, initial: int)
    requires WellFormed(w, s) && Bounded(w, s, c, initial) && Next(w, s, t)
    ensures WellFormed(w, t) && Bounded(w, t, c, initial)
  {
    var r :| Arrives(w, s, t, r) || Checks(w, s, t, r) || Increments(s, t, r) || Leaves(s, t, r);
    if hits :| ArrivesWith(w, s, t, r, hits) {
      ArrivalKeeps(w, s, t, c, initial, r, hits);
    } else if Checks(w, s, t, r) {
      CheckKeeps(w, s, t, c, initial, r);
    } else if Increments(s, t, r) {
      IncrementKeeps(w, s, t, c, initial, r);
    } else {
      LeavingKeeps(w, s, t, c, initial, r);
    }
  }

  /**
   Over every interleaving: what a counter shows plus what passed requests still owe it stays within limit - 1 plus
   the number of requests allowed inside, or within where it started.
   */
  lemma {:induction false} OvershootBound(w: Setting, run: seq<State>, i: nat, c: CounterKey)
    requires IsRun(Step(w), run) && i < |run| && run[0].inside == map[]
    ensures WellFormed(w, run[i]) && Bounded(w, run[i], c, Count(run[0], c))
  {
    if i == 0 {
      assert Owing(run[0], c) == {};
    } else {
      OvershootBound(w, run, i - 1, c);
      StepKeeps(w, run[i - 1], run[i], c, Count(run[0], c));
    }
  }

  /** One request at a time never overshoots. */
  lemma SerialNeverOvershoots(w: Setting, run: seq<State>, i: nat, c: CounterKey)
    requires IsRun(Step(w), run) && i < |run| && run[0].inside == map[]
    requires w.cap == 1 && Count(run[0], c) <= w.limits(c)
    ensures Count(run[i], c) <= w.limits(c)
  {
    OvershootBound(w, run, i, c);
  }

  // ----- the bound is reached

  function PassedRequest(c: CounterKey, r: nat): Request {
    Request([c], Checking(1))
  }

  /** Requests from..n, all past the check of c. */
  function Passed(c: CounterKey, from: nat, n: nat): map<nat, Request> {
    map r: nat | from <= r < n :: PassedRequest(c, r)
  }

  function Counted(c: CounterKey, n: int): map<CounterKey, int> {
    map[c := n]
  }

  lemma {:induction false} PassedSize(c: CounterKey, from: nat, n: nat)
    requires from <= n
    ensures |Passed(c, from, n)| == n - from
  {
    if from < n {
      PassedSize(c, from, n - 1);
      assert Passed(c, from, n) == Passed(c, from, n - 1)[n - 1 := Request([c], Checking(1))];
    } else {
      assert Passed(c, from, n) == map[];
    }
  }

  /** One more request arrives and passes the check. */
  lemma OnePasses(w: Setting, c: CounterKey, s: State, used: nat, r: nat)
    requires used < w.limits(c) && r < w.cap
    requires Reaches(Step(w), s, State(Counted(c, used), Passed(c, 0, r)))
    ensures Reaches(Step(w), s, State(Counted(c, used), Passed(c, 0, r + 1)))
  {
    var s0 := State(Counted(c, used), Passed(c, 0, r));
    var s1 := s0.(inside := s0.inside[r := Request([c], Checking(0))]);
    var s2 := State(Counted(c, used), Passed(c, 0, r + 1));
    PassedSize(c, 0, r);
    assert ArrivesWith(w, s0, s1, r, [c]) && Arrives(w, s0, s1, r);
    ReachesStep(Step(w), s, s0, s1);
    assert s2.inside == s1.inside[r := PassedRequest(c, r)];
    assert Checks(w, s1, s2, r);
    ReachesStep(Step(w), s, s1, s2);
  }

  lemma {:induction false} PassTogether(w: Setting, c: CounterKey, s: State, used: nat, n: nat)
    requires used < w.limits(c) && n <= w.cap && Reaches(Step(w), s, State(Counted(c, used), map[]))
    ensures Reaches(Step(w), s, State(Counted(c, used), Passed(c, 0, n)))
  {
    if n == 0 {
      assert Passed(c, 0, 0) == map[];
    } else {
      PassTogether(w, c, s, used, n - 1);
      OnePasses(w, c, s, used, n - 1);
    }
  }

  /** The first request that passed increments the counter and leaves. */
  lemma OneIncrements(w: Setting, c: CounterKey, s: State, used: nat, n: nat, r: nat)
    requires r < n && Reaches(Step(w), s, State(Counted(c, used), Passed(c, r, n)))
    ensures Reaches(Step(w), s, State(Counted(c, used + 1), Passed(c, r + 1, n)))
  {
    var s0 := State(Counted(c, used), Passed(c, r, n));
    var s1 := Moved(s0, r, Incrementing(0));
    var s2 := State(Counted(c, used + 1), Passed(c, r + 1, n));
    assert Checks(w, s0, s1, r);
    ReachesStep(Step(w), s, s0, s1);
    assert s2.inside == s1.inside - {r};
    assert Increments(s1, s2, r);
    ReachesStep(Step(w), s, s1, s2);
  }

  lemma {:induction false} IncrementTogether(w: Setting, c: CounterKey, s: State, used: nat, n: nat, k: nat)
    requires k <= n && Reaches(Step(w), s, State(Counted(c, used), Passed(c, 0, n)))
    ensures Reaches(Step(w), s, State(Counted(c, used + k), Passed(c, k, n)))
  {
    if k > 0 {
      IncrementTogether(w, c, s, used, n, k - 1);
      OneIncrements(w, c, s, used + k - 1, n, k - 1);
    }
  }

  /** Requests one after the other, up to the limit. */
  lemma {:induction false} FillToLimit(w: Setting, c: CounterKey, s: State, n: nat)
    requires w.cap >= 1 && n <= w.limits(c) && s == State(Counted(c, 0), map[])
    ensures Reaches(Step(w), s, State(Counted(c, n), map[]))
  {
    if n == 0 {
      ReachesSelf(Step(w), s);
    } else {
      FillToLimit(w, c, s, n - 1);
      PassTogether(w, c, s, n - 1, 1);
      IncrementTogether(w, c, s, n - 1, 1, 1);
      assert Passed(c, 1, 1) == map[];
    }
  }

  /** For every limit and every cap some run ends with the counter at limit - 1 + cap. */
  lemma OvershootIsReached(w: Setting, c: CounterKey)
    requires w.cap >= 1 && w.limits(c) >= 1
    ensures Reaches(Step(w), State(Counted(c, 0), map[]), State(Counted(c, w.limits(c) - 1 + w.cap), map[]))
  {
    var s, used := State(Counted(c, 0), map[]), w.limits(c) - 1;
    FillToLimit(w, c, s, used);
    PassTogether(w, c, s, used, w.cap);
    IncrementTogether(w, c, s, used, w.cap, w.cap);
    assert Passed(c, w.cap, w.cap) == map[];
  }
}
