/**
 Which positions the retry and failover loops come to, where they end and what they call, sleep and report there: in
 terms of outcomes alone, for any behaviour of sleeping, binding and upstreams.
 */
module FailoverPaths {
  import opened Collections
  import opened Failover

  // ----- what the outcomes of earlier tries allow

  /** The upstream is called, once the loop comes here. */
  ghost predicate IsOpen(w: World, loop: Loop, p: Pos) {
    !(p.attempt > 0 && w.sleepFails(p)) && !w.bindFails(p) && !(loop == Audio && w.backendMissing(p))
  }

  /** An outcome that is worth another call. */
  predicate IsRetryable(loop: Loop, r: CallResult) {
    match r
    case Response(code) => code >= 500 || code == 429
    case CallError(StreamUnsupported) => false
    case CallError(FeatureUnsupported) => loop == Audio
    case CallError(UpstreamFailure) => true
  }

  /** Tries before the k-th of a target were all called, with outcomes worth another call. */
  ghost predicate Retried(w: World, loop: Loop, t: nat, k: nat) {
    forall j: nat :: j < k ==> IsOpen(w, loop, Pos(t, j)) && IsRetryable(loop, w.call(Pos(t, j)))
  }

  /** A target is left for the next one: its credentials or backend are missing, or its last try was not good enough. */
  ghost predicate GivesUp(w: World, loop: Loop, p: Pos) {
    || (!(p.attempt > 0 && w.sleepFails(p)) && (w.bindFails(p) || (loop == Audio && w.backendMissing(p))))
    || (p.attempt == w.tries - 1 && IsOpen(w, loop, p) && IsRetryable(loop, w.call(p)))
  }

  ghost predicate GivenUp(w: World, loop: Loop, t: nat) {
    exists k: nat :: k < w.tries && Retried(w, loop, t, k) && GivesUp(w, loop, Pos(t, k))
  }

  /** All targets before were given up, and all tries before of this target were worth another call. */
  ghost predicate IsReached(w: World, loop: Loop, p: Pos) {
    && InRange(w, p)
    && (forall t: nat :: t < p.target ==> GivenUp(w, loop, t))
    && Retried(w, loop, p.target, p.attempt)
  }

  // ----- the path of a loop

  /** The positions a loop comes to, from p on. */
  ghost function Path(w: World, loop: Loop, p: Pos): seq<Pos>
    requires InRange(w, p)
    decreases w.targets - p.target, w.tries - p.attempt
  {
    [p] + if NextPos(w, loop, p).Some? then Path(w, loop, NextPos(w, loop, p).value) else []
  }

  lemma NextIsReached(w: World, loop: Loop, p: Pos)
    requires IsReached(w, loop, p) && NextPos(w, loop, p).Some?
    ensures IsReached(w, loop, NextPos(w, loop, p).value)
  {
    var q := NextPos(w, loop, p).value;
    if q.target == p.target {
      assert IsOpen(w, loop, p) && IsRetryable(loop, w.call(p));
    } else {
      assert GivesUp(w, loop, p);
    }
  }

  lemma RetriedThrough(w: World, loop: Loop, t: nat, k: nat, j: nat)
    requires Retried(w, loop, t, k)
    ensures j < k ==> IsOpen(w, loop, Pos(t, j)) && IsRetryable(loop, w.call(Pos(t, j)))
  {
  }

  /** A target that is reached at try k is given up there or not at all. */
  lemma GivenUpOnlyHere(w: World, loop: Loop, p: Pos)
    requires IsReached(w, loop, p) && !(IsOpen(w, loop, p) && IsRetryable(loop, w.call(p)) && p.attempt + 1 < w.tries)
    ensures GivenUp(w, loop, p.target) <==> GivesUp(w, loop, p)
  {
    if GivenUp(w, loop, p.target) {
      var k: nat :| k < w.tries && Retried(w, loop, p.target, k) && GivesUp(w, loop, Pos(p.target, k));
      RetriedThrough(w, loop, p.target, k, p.attempt);
      RetriedThrough(w, loop, p.target, p.attempt, k);
    }
  }

  /** Nothing between a reached position and the next one is reached. */
  lemma NothingIsSkipped(w: World, loop: Loop, p: Pos, q: Pos)
    requires IsReached(w, loop, p) && IsReached(w, loop, q) && Before(p, q)
    ensures NextPos(w, loop, p).Some? && (q == NextPos(w, loop, p).value || Before(NextPos(w, loop, p).value, q))
  {
    if q.target == p.target {
      assert IsOpen(w, loop, Pos(p.target, p.attempt)) && IsRetryable(loop, w.call(Pos(p.target, p.attempt)));
    } else if IsOpen(w, loop, p) && IsRetryable(loop, w.call(p)) && p.attempt + 1 < w.tries {
      assert NextPos(w, loop, p) == Some(Pos(p.target, p.attempt + 1));
    } else {
      GivenUpOnlyHere(w, loop, p);
      assert GivenUp(w, loop, p.target);
    }
  }

  lemma {:induction false} PathIsReached(w: World, loop: Loop, p: Pos, q: Pos)
    requires IsReached(w, loop, p)
    ensures q in Path(w, loop, p) <==> IsReached(w, loop, q) && (q == p || Before(p, q))
    decreases w.targets - p.target, w.tries - p.attempt
  {
    var next := NextPos(w, loop, p);
    if next.Some? {
      NextIsReached(w, loop, p);
      PathIsReached(w, loop, next.value, q);
    }
    if IsReached(w, loop, q) && Before(p, q) {
      NothingIsSkipped(w, loop, p, q);
    }
  }

  lemma {:induction false} PathAdvances(w: World, loop: Loop, p: Pos)
    requires InRange(w, p)
    ensures forall i, j :: 0 <= i < j < |Path(w, loop, p)| ==> Before(Path(w, loop, p)[i], Path(w, loop, p)[j])
    ensures Path(w, loop, p)[0] == p
    decreases w.targets - p.target, w.tries - p.attempt
  {
    if NextPos(w, loop, p).Some? {
      var rest := Path(w, loop, NextPos(w, loop, p).value);
      PathAdvances(w, loop, NextPos(w, loop, p).value);
      forall j | 0 <= j < |rest| ensures Before(p, rest[j]) {
        assert j > 0 ==> Before(rest[0], rest[j]);
      }
    }
  }

  /** A loop comes to exactly the reached positions, in order. */
  lemma ComesToReachedPositions(w: World, loop: Loop)
    requires Valid(w)
    ensures forall q :: q in Path(w, loop, START) <==> IsReached(w, loop, q)
    ensures forall i, j :: 0 <= i < j < |Path(w, loop, START)| ==>
              Before(Path(w, loop, START)[i], Path(w, loop, START)[j])
  {
    forall q ensures q in Path(w, loop, START) <==> IsReached(w, loop, q) {
      PathIsReached(w, loop, START, q);
    }
    PathAdvances(w, loop, START);
  }

  // ----- what happens on the path

  function IsRetry(): Pos -> bool { (p: Pos) => p.attempt > 0 }

  function RetryIndex(): Pos -> nat { (p: Pos) => if p.attempt > 0 then p.attempt - 1 else 0 }

  ghost function Opens(w: World, loop: Loop): Pos -> bool { (p: Pos) => IsOpen(w, loop, p) }

  lemma {:induction false} CallsOnPath(w: World, loop: Loop, p: Pos)
    requires InRange(w, p)
    ensures Trace(w, loop, p) == Filter(Path(w, loop, p), Opens(w, loop))
    decreases w.targets - p.target, w.tries - p.attempt
  {
    var next := NextPos(w, loop, p);
    FilterHead(p, Opens(w, loop));
    if next.Some? {
      CallsOnPath(w, loop, next.value);
      FilterConcat([p], Path(w, loop, next.value), Opens(w, loop));
    }
  }

  lemma {:induction false} SleepsOnPath(w: World, loop: Loop, p: Pos)
    requires InRange(w, p)
    ensures Sleeps(w, loop, p) == Map(Filter(Path(w, loop, p), IsRetry()), RetryIndex())
    decreases w.targets - p.target, w.tries - p.attempt
  {
    var next := NextPos(w, loop, p);
    FilterHead(p, IsRetry());
    if next.Some? {
      SleepsOnPath(w, loop, next.value);
      FilterConcat([p], Path(w, loop, next.value), IsRetry());
    }
  }

  lemma {:induction false} PathEnds(w: World, loop: Loop, p: Pos)
    requires InRange(w, p)
    ensures LastPos(w, loop, p) == Path(w, loop, p)[|Path(w, loop, p)| - 1]
    decreases w.targets - p.target, w.tries - p.attempt
  {
    if NextPos(w, loop, p).Some? {
      PathEnds(w, loop, NextPos(w, loop, p).value);
    }
  }

  lemma FilterHead(p: Pos, keep: Pos -> bool)
    ensures Filter([p], keep) == if keep(p) then [p] else []
  {
    assert [p][..0] == [];
  }

  /** The upstream calls are those at reached positions where nothing stands in the way. */
  lemma CallsFollowOutcomes(w: World, loop: Loop)
    requires Valid(w)
    ensures forall p :: p in Trace(w, loop, START) <==> IsReached(w, loop, p) && IsOpen(w, loop, p)
  {
    ComesToReachedPositions(w, loop);
    CallsOnPath(w, loop, START);
  }

  /** Before every reached try but the first of a target there is one sleep, under the number of the retry. */
  lemma SleepsFollowOutcomes(w: World, loop: Loop)
    requires Valid(w)
    ensures Sleeps(w, loop, START) == Map(Filter(Path(w, loop, START), IsRetry()), RetryIndex())
  {
    SleepsOnPath(w, loop, START);
  }

  /** A loop ends at the last reached position. */
  lemma EndsAtLastReached(w: World, loop: Loop)
    requires Valid(w)
    ensures IsReached(w, loop, LastPos(w, loop, START))
    ensures forall p :: IsReached(w, loop, p) ==>
              p == LastPos(w, loop, START) || Before(p, LastPos(w, loop, START))
  {
    ComesToReachedPositions(w, loop);
    PathEnds(w, loop, START);
    PathAdvances(w, loop, START);
    LastIsLast(Path(w, loop, START));
  }

  lemma LastIsLast(path: seq<Pos>)
    requires path != [] && forall i, j :: 0 <= i < j < |path| ==> Before(path[i], path[j])
    ensures forall p :: p in path ==> p == path[|path| - 1] || Before(p, path[|path| - 1])
  {
  }

  // ----- where the loops end, and with what

  /** An outcome no loop goes on after. */
  predicate IsFinal(loop: Loop, r: CallResult) {
    match r
    case Response(code) => code < 500 && code != 429
    case CallError(StreamUnsupported) => true
    case CallError(FeatureUnsupported) => loop == Chat
    case CallError(UpstreamFailure) => false
  }

  /**
   A loop ends when its sleep is cancelled, after a call with a final outcome, or on the last target, when credentials
   or backend are missing or the tries are used up.
   */
  lemma LoopsEndForAReason(w: World, loop: Loop)
    requires Valid(w)
    ensures var p := LastPos(w, loop, START);
            || (p.attempt > 0 && w.sleepFails(p))
            || (p in Trace(w, loop, START) && IsFinal(loop, w.call(p)))
            || (p.target == w.targets - 1 &&
                (w.bindFails(p) || (loop == Audio && w.backendMissing(p)) || p.attempt == w.tries - 1))
  {
    LastCallOrError(w, loop, START);
    CallsFollowOutcomes(w, loop);
    EndsAtLastReached(w, loop);
  }

  /** What the handler is told: the reason the last position gives, if it is an error. */
  lemma LastErrorIs(w: World, loop: Loop)
    requires Valid(w)
    ensures var p, e := LastPos(w, loop, START), ErrorAt(w, loop, LastPos(w, loop, START));
            if p.attempt > 0 && w.sleepFails(p) then e == Some(SleepCancelled)
            else if w.bindFails(p) then e == Some(CredentialFailed)
            else if loop == Audio && w.backendMissing(p) then e == Some(BackendMissing)
            else p in Trace(w, loop, START) &&
                 match w.call(p) { case Response(_) => e == None case CallError(kind) => e == Some(CallFailed(kind)) }
  {
    CallsFollowOutcomes(w, loop);
    EndsAtLastReached(w, loop);
  }

  /** Every target up to the last one the loop comes to is tried, unless its credentials or backend are missing. */
  lemma TargetsAreTried(w: World, loop: Loop, t: nat)
    requires Valid(w) && t <= LastPos(w, loop, START).target
    ensures Pos(t, 0) in Trace(w, loop, START) <==>
            !w.bindFails(Pos(t, 0)) && !(loop == Audio && w.backendMissing(Pos(t, 0)))
  {
    CallsFollowOutcomes(w, loop);
    EndsAtLastReached(w, loop);
    assert IsReached(w, loop, Pos(t, 0));
  }
}
