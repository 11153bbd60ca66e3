/**
 The retry and failover loops of the chat and audio handlers. Sleeping, binding credentials and calling upstreams are
 oracles over (target, try): a loop comes to each position at most once, so this covers every behaviour.
 */
module Failover {
  import opened Collections
  import opened Backoff

  /** Try `attempt` of route target `target`. */
  datatype Pos = Pos(target: nat, attempt: nat)

  datatype ErrorKind = StreamUnsupported | FeatureUnsupported | UpstreamFailure

  datatype CallResult = Response(status: int) | CallError(kind: ErrorKind)

  datatype World = World(targets: nat, tries: nat, sleepFails: Pos -> bool, bindFails: Pos -> bool,
                         backendMissing: Pos -> bool, call: Pos -> CallResult)

  ghost predicate Valid(w: World) {
    w.targets > 0 && w.tries > 0
  }

  /** Tries per target, the first one included. */
  function MaxTriesFor(cfg: Option<RetryConfig>): (r: nat)
    ensures r >= 1
    ensures cfg.Some? && cfg.value.maxAttempts >= 1 ==> r == cfg.value.maxAttempts
    ensures cfg.None? || cfg.value.maxAttempts < 1 ==> r == 1
  {
    if cfg.None? || cfg.value.maxAttempts < 1 then 1 else cfg.value.maxAttempts
  }

  predicate ShouldFailoverStatus(code: int) {
    code >= 500 || code == 429
  }

  predicate ShouldFailoverError(kind: ErrorKind) {
    kind != StreamUnsupported
  }

  // ----- where a loop goes from one position

  datatype Loop = Chat | Audio

  ghost predicate InRange(w: World, p: Pos) {
    p.target < w.targets && p.attempt < w.tries
  }

  function SkipTarget(w: World, p: Pos): Option<Pos> {
    if p.target + 1 < w.targets then Some(Pos(p.target + 1, 0)) else None
  }

  function Onward(w: World, p: Pos): Option<Pos> {
    if p.attempt + 1 < w.tries then Some(Pos(p.target, p.attempt + 1)) else SkipTarget(w, p)
  }

  predicate Cancelled(w: World, p: Pos) {
    p.attempt > 0 && w.sleepFails(p)
  }

  /** The upstream is called here, once the loop comes here. */
  predicate Calls(w: World, loop: Loop, p: Pos) {
    !Cancelled(w, p) && !w.bindFails(p) && (loop == Audio ==> !w.backendMissing(p))
  }

  /** Chat treats an unsupported feature as the client's error. */
  predicate GoesOnAfter(loop: Loop, r: CallResult) {
    match r
    case Response(code) => ShouldFailoverStatus(code)
    case CallError(kind) => ShouldFailoverError(kind) && (loop == Chat ==> kind != FeatureUnsupported)
  }

  /** The next position, or None when the loop ends here. */
  function NextPos(w: World, loop: Loop, p: Pos): (q: Option<Pos>)
    ensures q.Some? && InRange(w, p) ==>
              InRange(w, q.value) && (q.value == Pos(p.target, p.attempt + 1) || q.value == Pos(p.target + 1, 0))
    ensures q == Some(Pos(p.target, p.attempt + 1)) ==> Calls(w, loop, p) && GoesOnAfter(loop, w.call(p))
  {
    if Cancelled(w, p) then None
    else if !Calls(w, loop, p) then SkipTarget(w, p)
    else if GoesOnAfter(loop, w.call(p)) then Onward(w, p)
    else None
  }

  // ----- the recursive specification

  const START := Pos(0, 0)

  /** The upstream calls made from p on. */
  ghost function Trace(w: World, loop: Loop, p: Pos): seq<Pos>
    requires InRange(w, p)
    decreases w.targets - p.target, w.tries - p.attempt
  {
    (if Calls(w, loop, p) then [p] else [])
    + (if NextPos(w, loop, p).Some? then Trace(w, loop, NextPos(w, loop, p).value) else [])
  }

  /** The position at which the loop ends. */
  ghost function LastPos(w: World, loop: Loop, p: Pos): Pos
    requires InRange(w, p)
    decreases w.targets - p.target, w.tries - p.attempt
  {
    if NextPos(w, loop, p).Some? then LastPos(w, loop, NextPos(w, loop, p).value) else p
  }

  ghost predicate Before(p: Pos, q: Pos) {
    p.target < q.target || (p.target == q.target && p.attempt < q.attempt)
  }

  /** The outcomes after which a further call may follow. */
  ghost predicate Retryable(r: CallResult) {
    match r
    case Response(code) => ShouldFailoverStatus(code)
    case CallError(kind) => ShouldFailoverError(kind)
  }

  /**
   A trace that keeps the rules, after an earlier call prev: positions in range and strictly forward, credentials bound,
   a further try only right after the try before it was called, and never a call after a final outcome.
   */
  ghost predicate Disciplined(w: World, prev: Option<Pos>, t: seq<Pos>)
    decreases t
  {
    t == [] ||
    (&& InRange(w, t[0]) && !w.bindFails(t[0])
     && (prev.Some? ==> Before(prev.value, t[0]) && Retryable(w.call(prev.value)))
     && (t[0].attempt > 0 ==> prev == Some(Pos(t[0].target, t[0].attempt - 1)))
     && Disciplined(w, Some(t[0]), t[1..]))
  }

  lemma {:induction false} TraceIsDisciplined(w: World, loop: Loop, p: Pos, prev: Option<Pos>)
    requires InRange(w, p)
    requires prev.Some? ==> Before(prev.value, p) && Retryable(w.call(prev.value))
    requires p.attempt > 0 ==> prev == Some(Pos(p.target, p.attempt - 1))
    ensures Disciplined(w, prev, Trace(w, loop, p))
    decreases w.targets - p.target, w.tries - p.attempt
  {
    var q := NextPos(w, loop, p);
    var rest := if q.Some? then Trace(w, loop, q.value) else [];
    if q.Some? {
      TraceIsDisciplined(w, loop, q.value, if Calls(w, loop, p) then Some(p) else prev);
    }
    if Calls(w, loop, p) {
      assert Trace(w, loop, p)[1..] == rest;
    } else {
      assert Trace(w, loop, p) == rest;
    }
  }

  /** k * x as a sum, to keep products out of the inductions. */
  function Times(k: nat, x: int): int {
    if k == 0 then 0 else Times(k - 1, x) + x
  }

  lemma {:induction false} TimesIsProduct(k: nat, x: int)
    ensures Times(k, x) == k * x
  {
    if k > 0 {
      TimesIsProduct(k - 1, x);
      assert k * x == (k - 1) * x + x;
    }
  }

  lemma {:induction false} TraceBound(w: World, loop: Loop, p: Pos)
    requires InRange(w, p)
    ensures |Trace(w, loop, p)| <= w.tries - p.attempt + Times(w.targets - 1 - p.target, w.tries)
    decreases w.targets - p.target, w.tries - p.attempt
  {
    if NextPos(w, loop, p).Some? {
      TraceBound(w, loop, NextPos(w, loop, p).value);
    } else {
      TimesAtLeastZero(w.targets - 1 - p.target, w.tries);
    }
  }

  /** What the rules mean for any two calls of a trace. */
  lemma {:induction false} DisciplineUnfolded(w: World, prev: Option<Pos>, t: seq<Pos>, i: nat, j: nat)
    requires Disciplined(w, prev, t) && i < j < |t|
    ensures Before(t[i], t[j]) && Retryable(w.call(t[i])) && InRange(w, t[j]) && !w.bindFails(t[j])
    ensures t[j].attempt > 0 ==> t[j - 1] == Pos(t[j].target, t[j].attempt - 1)
    decreases t
  {
    var rest := t[1..];
    if i > 0 {
      DisciplineUnfolded(w, Some(t[0]), rest, i - 1, j - 1);
    } else if j > 1 {
      DisciplineUnfolded(w, Some(t[0]), rest, 0, j - 1);
      assert Before(t[0], rest[0]);
    } else {
      assert t[1] == rest[0];
    }
  }

  /** Every run of either loop keeps the rules and makes at most targets * tries calls. */
  lemma LoopsAreDisciplined(w: World, loop: Loop)
    requires Valid(w)
    ensures Disciplined(w, None, Trace(w, loop, START))
    ensures |Trace(w, loop, START)| <= w.targets * w.tries
  {
    TraceIsDisciplined(w, loop, START, None);
    TraceBound(w, loop, START);
    TimesIsProduct(w.targets, w.tries);
  }

  /** No call follows a final outcome, and the calls advance in (target, try) order. */
  lemma NoCallAfterFinalOutcome(w: World, loop: Loop, i: nat, j: nat)
    requires Valid(w) && i < j < |Trace(w, loop, START)|
    ensures var t := Trace(w, loop, START);
            Before(t[i], t[j]) && Retryable(w.call(t[i]))
  {
    LoopsAreDisciplined(w, loop);
    DisciplineUnfolded(w, None, Trace(w, loop, START), i, j);
  }

  lemma {:induction false} SameStepsSameTrace(w: World, p: Pos)
    requires InRange(w, p)
    requires forall q :: InRange(w, q) ==> !w.backendMissing(q) && w.call(q) != CallError(FeatureUnsupported)
    ensures Trace(w, Chat, p) == Trace(w, Audio, p)
    decreases w.targets - p.target, w.tries - p.attempt
  {
    assert NextPos(w, Chat, p) == NextPos(w, Audio, p);
    if NextPos(w, Chat, p).Some? {
      SameStepsSameTrace(w, NextPos(w, Chat, p).value);
    }
  }

  /** Chat and audio call the same upstreams in the same order when no backend is missing and no feature unsupported. */
  lemma ChatAndAudioAgree(w: World)
    requires Valid(w)
    requires forall p :: InRange(w, p) ==> !w.backendMissing(p) && w.call(p) != CallError(FeatureUnsupported)
    ensures Trace(w, Chat, START) == Trace(w, Audio, START)
  {
    SameStepsSameTrace(w, START);
  }

  // ----- how the loops end

  datatype LoopError = SleepCancelled | CredentialFailed | BackendMissing | CallFailed(kind: ErrorKind)

  function ErrorAt(w: World, loop: Loop, p: Pos): Option<LoopError> {
    if Cancelled(w, p) then Some(SleepCancelled)
    else if w.bindFails(p) then Some(CredentialFailed)
    else if loop == Audio && w.backendMissing(p) then Some(BackendMissing)
    else
      match w.call(p)
      case CallError(kind) => Some(CallFailed(kind))
      case Response(_) => None
  }

  /** The variable `result` of the chat loop: a call overwrites it, and a failed call overwrites it with nothing. */
  datatype ChatResult = Zero | From(p: Pos)

  function ResultOf(w: World, calls: seq<Pos>): ChatResult {
    if calls != [] && w.call(calls[|calls| - 1]).Response? then From(calls[|calls| - 1]) else Zero
  }

  predicate SomeAnswered(w: World, calls: seq<Pos>) {
    calls != [] && (w.call(calls[|calls| - 1]).Response? || SomeAnswered(w, calls[..|calls| - 1]))
  }

  lemma {:induction false} SomeAnsweredMeans(w: World, calls: seq<Pos>)
    ensures SomeAnswered(w, calls) <==> exists p :: p in calls && w.call(p).Response?
  {
    if calls != [] {
      var n := |calls| - 1;
      SomeAnsweredMeans(w, calls[..n]);
      assert calls == calls[..n] + [calls[n]];
    }
  }

  /** The chat variables after one more call. */
  lemma OneMoreCall(w: World, calls: seq<Pos>, p: Pos)
    ensures SomeAnswered(w, calls + [p]) == (w.call(p).Response? || SomeAnswered(w, calls))
    ensures ResultOf(w, calls + [p]) == if w.call(p).Response? then From(p) else Zero
  {
    assert (calls + [p])[..|calls|] == calls;
  }

  /** Retry indexes slept before, in order. */
  ghost function Sleeps(w: World, loop: Loop, p: Pos): seq<nat>
    requires InRange(w, p)
    decreases w.targets - p.target, w.tries - p.attempt
  {
    (if p.attempt > 0 then [p.attempt - 1] else [])
    + (if NextPos(w, loop, p).Some? then Sleeps(w, loop, NextPos(w, loop, p).value) else [])
  }

  datatype Walk = Walk(calls: seq<Pos>, sleeps: seq<nat>, last: Pos)

  function SleepAt(p: Pos): seq<nat> {
    if p.attempt > 0 then [p.attempt - 1] else []
  }

  function CallAt(w: World, loop: Loop, p: Pos): seq<Pos> {
    if Calls(w, loop, p) then [p] else []
  }

  /** The specification with accumulators: what the loops end with, given what they did before p. */
  ghost function Finish(w: World, loop: Loop, calls: seq<Pos>, sleeps: seq<nat>, p: Pos): Walk
    requires InRange(w, p)
    decreases w.targets - p.target, w.tries - p.attempt
  {
    var calls', sleeps' := calls + CallAt(w, loop, p), sleeps + SleepAt(p);
    match NextPos(w, loop, p)
    case Some(q) => Finish(w, loop, calls', sleeps', q)
    case None => Walk(calls', sleeps', p)
  }

  lemma {:induction false} FinishIsTrace(w: World, loop: Loop, calls: seq<Pos>, sleeps: seq<nat>, p: Pos)
    requires InRange(w, p)
    ensures Finish(w, loop, calls, sleeps, p)
         == Walk(calls + Trace(w, loop, p), sleeps + Sleeps(w, loop, p), LastPos(w, loop, p))
    decreases w.targets - p.target, w.tries - p.attempt
  {
    match NextPos(w, loop, p)
    case Some(q) =>
      FinishIsTrace(w, loop, calls + CallAt(w, loop, p), sleeps + SleepAt(p), q);
      ConcatAssociative(calls, CallAt(w, loop, p), Trace(w, loop, q));
      ConcatAssociative(sleeps, SleepAt(p), Sleeps(w, loop, q));
    case None =>
      assert Trace(w, loop, p) == CallAt(w, loop, p);
      assert Sleeps(w, loop, p) == SleepAt(p);
  }

  ghost function Whole(w: World, loop: Loop): Walk
    requires Valid(w)
  {
    Finish(w, loop, [], [], START)
  }

  lemma WholeIsTrace(w: World, loop: Loop)
    requires Valid(w)
    ensures Whole(w, loop) == Walk(Trace(w, loop, START), Sleeps(w, loop, START), LastPos(w, loop, START))
  {
    FinishIsTrace(w, loop, [], [], START);
  }

  /** How a position ends: `continue`, `continue targetLoop`, `break targetLoop`. */
  datatype Exit = Retry | NextTarget | Break

  function ExitTo(p: Pos, q: Option<Pos>): Exit {
    if q.None? then Break else if q.value.target == p.target then Retry else NextTarget
  }

  /** What the chat loop does at one position, with the order of its tests and its exits. */
  method ChatTry(w: World, p: Pos, calls0: seq<Pos>, sleeps0: seq<nat>, result0: ChatResult, have0: bool)
    returns (calls: seq<Pos>, sleeps: seq<nat>, result: ChatResult, lastErr: Option<LoopError>, haveResult: bool,
             exit: Exit)
    requires InRange(w, p) && result0 == ResultOf(w, calls0) && have0 == SomeAnswered(w, calls0)
    ensures calls == calls0 + CallAt(w, Chat, p) && sleeps == sleeps0 + SleepAt(p)
    ensures exit == ExitTo(p, NextPos(w, Chat, p))
    ensures lastErr == ErrorAt(w, Chat, p)
    ensures result == ResultOf(w, calls) && haveResult == SomeAnswered(w, calls)
  {
    calls, sleeps, result, haveResult := calls0, sleeps0, result0, have0;
    if p.attempt > 0 {
      sleeps := sleeps + [p.attempt - 1];
      if w.sleepFails(p) {
        return calls, sleeps, result, Some(SleepCancelled), haveResult, Break;
      }
    }
    if w.bindFails(p) {
      exit := if p.target + 1 < w.targets then NextTarget else Break;
      return calls, sleeps, result, Some(CredentialFailed), haveResult, exit;
    }
    calls := calls + [p];
    OneMoreCall(w, calls0, p);
    match w.call(p) {
      case CallError(kind) =>
        result, lastErr, exit := Zero, Some(CallFailed(kind)), Break;
        if kind == StreamUnsupported || kind == FeatureUnsupported {
          return;
        }
        if ShouldFailoverError(kind) {
          if p.attempt + 1 < w.tries {
            exit := Retry;
          } else if p.target + 1 < w.targets {
            exit := NextTarget;
          }
        }
      case Response(code) =>
        result, lastErr, haveResult, exit := From(p), None, true, Break;
        if ShouldFailoverStatus(code) && (p.attempt + 1 < w.tries || p.target + 1 < w.targets) {
          exit := if p.attempt + 1 < w.tries then Retry else NextTarget;
        }
    }
  }

  /** The chat loop. */
  method ChatLoop(w: World)
    returns (calls: seq<Pos>, sleeps: seq<nat>, result: ChatResult, lastErr: Option<LoopError>, haveResult: bool)
    requires Valid(w)
    ensures calls == Trace(w, Chat, START) && sleeps == Sleeps(w, Chat, START)
    ensures lastErr == ErrorAt(w, Chat, LastPos(w, Chat, START))
    ensures result == ResultOf(w, calls)
    ensures haveResult == SomeAnswered(w, calls)
  {
    WholeIsTrace(w, Chat);
    calls, sleeps, result, lastErr, haveResult := [], [], Zero, None, false;
    label targetLoop:
    for i := 0 to w.targets
      invariant i < w.targets
      invariant Finish(w, Chat, calls, sleeps, Pos(i, 0)) == Whole(w, Chat)
      invariant result == ResultOf(w, calls) && haveResult == SomeAnswered(w, calls)
    {
      for try := 0 to w.tries
        invariant try < w.tries
        invariant Finish(w, Chat, calls, sleeps, Pos(i, try)) == Whole(w, Chat)
        invariant result == ResultOf(w, calls) && haveResult == SomeAnswered(w, calls)
      {
        var exit;
        calls, sleeps, result, lastErr, haveResult, exit := ChatTry(w, Pos(i, try), calls, sleeps, result, haveResult);
        match exit {
          case Retry => continue;
          case NextTarget => continue targetLoop;
          case Break => break targetLoop;
        }
      }
    }
  }

  // ----- what the chat handler can deliver

  /** The loop reports a result although it holds none: the last call failed after an earlier one answered. */
  ghost predicate DeliversNothing(w: World)
    requires Valid(w)
  {
    SomeAnswered(w, Trace(w, Chat, START)) && ResultOf(w, Trace(w, Chat, START)) == Zero
  }

  lemma AnswerLost(w: World, t: seq<Pos>)
    ensures SomeAnswered(w, t) && ResultOf(w, t) == Zero
            <==> t != [] && w.call(t[|t| - 1]).CallError? && exists p :: p in t[..|t| - 1] && w.call(p).Response?
  {
    if t != [] {
      SomeAnsweredMeans(w, t[..|t| - 1]);
    }
  }

  /** The first call is answered 503, every other one fails for good. */
  function OneAnswer(targets: nat, tries: nat): World {
    World(targets, tries, (p: Pos) => false, (p: Pos) => false, (p: Pos) => false,
          (p: Pos) => if p == START then Response(503) else CallError(StreamUnsupported))
  }

  lemma OneAnswerDeliversNothing(n: nat, k: nat)
    requires n > 0 && k > 0 && (n > 1 || k > 1)
    ensures DeliversNothing(OneAnswer(n, k))
  {
    var w := OneAnswer(n, k);
    var second := if k > 1 then Pos(0, 1) else Pos(1, 0);
    assert NextPos(w, Chat, START) == Some(second);
    assert Trace(w, Chat, second) == [second];
    assert Trace(w, Chat, START) == [START, second];
    OneMoreCall(w, [START], second);
    assert [START] + [second] == [START, second];
  }

  lemma OneCallDelivers(w: World)
    requires w.targets == 1 && w.tries == 1
    ensures !DeliversNothing(w)
  {
    assert NextPos(w, Chat, START).None?;
    assert Trace(w, Chat, START) == CallAt(w, Chat, START);
    AnswerLost(w, Trace(w, Chat, START));
  }

  /**
   A chat handler that may call more than once, by a second target or a second try, can report a result it does not
   hold; with one target and one try it never does.
   */
  lemma ChatDeliversNothingIff(n: nat, k: nat)
    requires n > 0 && k > 0
    ensures (forall w: World :: w.targets == n && w.tries == k ==> !DeliversNothing(w)) <==> n == 1 && k == 1
  {
    if n == 1 && k == 1 {
      forall w: World | w.targets == n && w.tries == k ensures !DeliversNothing(w) {
        OneCallDelivers(w);
      }
    } else {
      OneAnswerDeliversNothing(n, k);
      assert OneAnswer(n, k).targets == n && OneAnswer(n, k).tries == k;
    }
  }

  /** It happens: the first target answers 503, the second one fails. */
  lemma ChatCanDeliverNothing(w: World)
    requires w.targets == 2 && w.tries == 1
    requires !w.bindFails(Pos(0, 0)) && !w.bindFails(Pos(1, 0))
    requires w.call(Pos(0, 0)) == Response(503) && w.call(Pos(1, 0)) == CallError(UpstreamFailure)
    ensures DeliversNothing(w)
  {
    assert NextPos(w, Chat, Pos(0, 0)) == Some(Pos(1, 0));
    assert Trace(w, Chat, Pos(1, 0)) == [Pos(1, 0)];
    assert Trace(w, Chat, START) == [Pos(0, 0), Pos(1, 0)];
    OneMoreCall(w, [Pos(0, 0)], Pos(1, 0));
    assert [Pos(0, 0)] + [Pos(1, 0)] == [Pos(0, 0), Pos(1, 0)];
  }

  lemma {:induction false} LastCallOrError(w: World, loop: Loop, p: Pos)
    requires InRange(w, p)
    ensures var t, last := Trace(w, loop, p), LastPos(w, loop, p);
            && (Calls(w, loop, last) ==> t != [] && t[|t| - 1] == last)
            && (!Calls(w, loop, last) ==> ErrorAt(w, loop, last).Some?)
            && InRange(w, last) && NextPos(w, loop, last).None?
    decreases w.targets - p.target, w.tries - p.attempt
  {
    if NextPos(w, loop, p).Some? {
      LastCallOrError(w, loop, NextPos(w, loop, p).value);
    }
  }

  /** The fallback answer "all upstream attempts failed" is never given: an answer or an error is always at hand. */
  lemma ChatAlwaysHasAnswerOrError(w: World)
    requires Valid(w)
    ensures SomeAnswered(w, Trace(w, Chat, START)) || ErrorAt(w, Chat, LastPos(w, Chat, START)).Some?
  {
    LastCallOrError(w, Chat, START);
  }

  // ----- the audio loop and its responses

  function Opened(w: World): Pos -> bool {
    (p: Pos) => w.call(p).Response?
  }

  /** The response left open at the end, if any. */
  ghost function Live(w: World): Option<Pos>
    requires Valid(w)
  {
    var last := LastPos(w, Audio, START);
    if Calls(w, Audio, last) && w.call(last).Response? then Some(last) else None
  }

  function Kept(resp: Option<Pos>): seq<Pos> {
    if resp.Some? then [resp.value] else []
  }

  /** What the speech and transcription loops do at one position; resp0 is the response the loop still holds. */
  method AudioTry(w: World, p: Pos, calls0: seq<Pos>, sleeps0: seq<nat>, resp0: Option<Pos>, discarded0: seq<Pos>)
    returns (calls: seq<Pos>, sleeps: seq<nat>, resp: Option<Pos>, lastErr: Option<LoopError>, discarded: seq<Pos>,
             exit: Exit)
    requires InRange(w, p) && resp0.None? && discarded0 == Filter(calls0, Opened(w))
    ensures calls == calls0 + CallAt(w, Audio, p) && sleeps == sleeps0 + SleepAt(p)
    ensures exit == ExitTo(p, NextPos(w, Audio, p))
    ensures lastErr == ErrorAt(w, Audio, p)
    ensures discarded + Kept(resp) == Filter(calls, Opened(w))
    ensures resp == if exit == Break && lastErr.None? then Some(p) else None
  {
    calls, sleeps, resp, discarded := calls0, sleeps0, resp0, discarded0;
    if p.attempt > 0 {
      sleeps := sleeps + [p.attempt - 1];
      if w.sleepFails(p) {
        discarded := discarded + Kept(resp);
        return calls, sleeps, None, Some(SleepCancelled), discarded, Break;
      }
    }
    if w.bindFails(p) {
      exit := if p.target + 1 < w.targets then NextTarget else Break;
      return calls, sleeps, resp, Some(CredentialFailed), discarded, exit;
    }
    if w.backendMissing(p) {
      exit := if p.target + 1 < w.targets then NextTarget else Break;
      return calls, sleeps, resp, Some(BackendMissing), discarded, exit;
    }
    calls := calls + [p];
    assert calls[..|calls0|] == calls0;
    match w.call(p) {
      case CallError(kind) =>
        resp, lastErr, exit := None, Some(CallFailed(kind)), Break;
        if ShouldFailoverError(kind) {
          if p.attempt + 1 < w.tries {
            exit := Retry;
          } else if p.target + 1 < w.targets {
            exit := NextTarget;
          }
        }
      case Response(code) =>
        resp, lastErr, exit := Some(p), None, Break;
        if ShouldFailoverStatus(code) && (p.attempt + 1 < w.tries || p.target + 1 < w.targets) {
          discarded := discarded + Kept(resp);
          resp := None;
          exit := if p.attempt + 1 < w.tries then Retry else NextTarget;
        }
    }
  }

  /** The audio loops: an error leaves no response open, a failover discards the one it got. */
  method AudioLoop(w: World)
    returns (calls: seq<Pos>, sleeps: seq<nat>, resp: Option<Pos>, lastErr: Option<LoopError>, discarded: seq<Pos>)
    requires Valid(w)
    ensures calls == Trace(w, Audio, START) && sleeps == Sleeps(w, Audio, START)
    ensures lastErr == ErrorAt(w, Audio, LastPos(w, Audio, START))
    ensures resp == Live(w)
    // exactly one of a live response or an error; so the branch with neither is never taken
    ensures resp.Some? <==> lastErr.None?
    // every opened response is discarded exactly once, in order, except the delivered one
    ensures discarded + Kept(resp) == Filter(calls, Opened(w))
  {
    calls, sleeps, resp, lastErr, discarded := [], [], None, None, [];
    label targetLoop:
    for i := 0 to w.targets
      invariant i < w.targets
      invariant Finish(w, Audio, calls, sleeps, Pos(i, 0)) == Whole(w, Audio)
      invariant resp.None? && discarded == Filter(calls, Opened(w))
    {
      for try := 0 to w.tries
        invariant try < w.tries
        invariant Finish(w, Audio, calls, sleeps, Pos(i, try)) == Whole(w, Audio)
        invariant resp.None? && discarded == Filter(calls, Opened(w))
      {
        var exit;
        calls, sleeps, resp, lastErr, discarded, exit := AudioTry(w, Pos(i, try), calls, sleeps, resp, discarded);
        assert discarded + [] == discarded;
        match exit {
          case Retry => continue;
          case NextTarget => continue targetLoop;
          case Break => break targetLoop;
        }
      }
    }
    WholeIsTrace(w, Audio);
  }

  // ----- waiting

  ghost function TotalWait(cfg: Option<RetryConfig>, parse: DurationParser, sleeps: seq<nat>): int {
    if sleeps == [] then 0 else Delay(cfg, sleeps[0], parse) + TotalWait(cfg, parse, sleeps[1..])
  }

  /** What the retries of one target may still wait at try k. */
  ghost function WaitLeft(w: World, r: RetryConfig, parse: DurationParser, k: nat): int
    requires w.tries > 0
  {
    WaitSum(Some(r), w.tries - 1, parse) - (if k > 0 then WaitSum(Some(r), k - 1, parse) else 0)
  }

  lemma WaitLeftStep(w: World, r: RetryConfig, parse: DurationParser, k: nat)
    requires Accepted(r, parse) && k < w.tries
    ensures 0 <= WaitLeft(w, r, parse, k) <= WaitLeft(w, r, parse, 0)
    ensures k > 0 ==> Delay(Some(r), k - 1, parse) + (if k + 1 < w.tries then WaitLeft(w, r, parse, k + 1) else 0)
                      <= WaitLeft(w, r, parse, k)
    ensures k + 1 < w.tries ==> 0 <= WaitLeft(w, r, parse, k + 1)
  {
    WaitSumGrows(r, parse, if k > 0 then k - 1 else 0, w.tries - 1);
    WaitSumGrows(r, parse, k, w.tries - 1);
  }

  lemma {:induction false} WaitBoundFrom(w: World, loop: Loop, p: Pos, r: RetryConfig, parse: DurationParser)
    requires InRange(w, p) && Accepted(r, parse)
    ensures TotalWait(Some(r), parse, Sleeps(w, loop, p))
         <= WaitLeft(w, r, parse, p.attempt) + Times(w.targets - 1 - p.target, WaitLeft(w, r, parse, 0))
    decreases w.targets - p.target, w.tries - p.attempt
  {
    var q := NextPos(w, loop, p);
    var rest := if q.Some? then Sleeps(w, loop, q.value) else [];
    WaitLeftStep(w, r, parse, p.attempt);
    assert p.attempt > 0 ==> Sleeps(w, loop, p)[0] == p.attempt - 1 && Sleeps(w, loop, p)[1..] == rest;
    assert p.attempt == 0 ==> Sleeps(w, loop, p) == rest;
    if q.Some? {
      WaitBoundFrom(w, loop, q.value, r, parse);
    } else {
      TimesAtLeastZero(w.targets - 1 - p.target, WaitLeft(w, r, parse, 0));
    }
  }

  lemma {:induction false} TimesAtLeastZero(k: nat, x: int)
    requires x >= 0
    ensures Times(k, x) >= 0
  {
    if k > 0 {
      TimesAtLeastZero(k - 1, x);
    }
  }

  lemma {:induction false} WaitSumGrows(r: RetryConfig, parse: DurationParser, k: nat, n: nat)
    requires Accepted(r, parse) && k <= n
    ensures 0 <= WaitSum(Some(r), k, parse) <= WaitSum(Some(r), n, parse)
  {
    if k < n {
      DelayBounds(r, parse, n - 1);
      WaitSumGrows(r, parse, k, n - 1);
    } else if k > 0 {
      DelayBounds(r, parse, k - 1);
      WaitSumGrows(r, parse, k - 1, k - 1);
    }
  }

  lemma {:induction false} WaitBoundTimes(w: World, loop: Loop, r: RetryConfig, parse: DurationParser)
    requires Valid(w) && Accepted(r, parse) && w.tries == MaxTriesFor(Some(r))
    ensures TotalWait(Some(r), parse, Sleeps(w, loop, START)) <=
            Times(w.targets, WaitSum(Some(r), r.maxAttempts - 1, parse))
  {
    WaitBoundFrom(w, loop, START, r, parse);
  }

  /** A run waits at most targets times what one target's retries can take. */
  lemma {:induction false} WaitBound(w: World, loop: Loop, r: RetryConfig, parse: DurationParser)
    requires Valid(w) && Accepted(r, parse) && w.tries == MaxTriesFor(Some(r))
    ensures TotalWait(Some(r), parse, Sleeps(w, loop, START))
         <= w.targets * WaitSum(Some(r), r.maxAttempts - 1, parse)
  {
    WaitBoundTimes(w, loop, r, parse);
    TimesIsProduct(w.targets, WaitSum(Some(r), r.maxAttempts - 1, parse));
  }

  lemma {:induction false} TimesInReals(k: nat, x: int, y: real)
    requires x as real <= y
    ensures Times(k, x) as real <= k as real * y
  {
    if k > 0 {
      TimesInReals(k - 1, x, y);
      assert (k - 1) as real * y + y == k as real * y;
    }
  }

  lemma BoundInReals(total: int, k: nat, x: int, y: real)
    requires total <= Times(k, x) && x as real <= y
    ensures total as real <= k as real * y
  {
    TimesInReals(k, x, y);
  }

  /** So any bound on the waits of one target bounds the run. */
  lemma {:induction false} WaitBoundedBy(w: World, loop: Loop, r: RetryConfig, parse: DurationParser, bound: real)
    requires Valid(w) && Accepted(r, parse) && w.tries == MaxTriesFor(Some(r))
    requires WaitSum(Some(r), r.maxAttempts - 1, parse) as real <= bound
    ensures TotalWait(Some(r), parse, Sleeps(w, loop, START)) as real <= w.targets as real * bound
  {
    WaitBoundTimes(w, loop, r, parse);
    BoundInReals(TotalWait(Some(r), parse, Sleeps(w, loop, START)), w.targets,
                 WaitSum(Some(r), r.maxAttempts - 1, parse), bound);
  }
}
