/**
 What policies decide, in terms of their actions as configured: which action decides a call, what it answers, and which
 headers and credential an allowed call carries.
 */
module PolicyRules {
  import opened Collections
  import opened Strings
  import opened Snapshot
  import opened PolicyEngine

  // ----- what one action does

  /** A configured expression is evaluated; without one the fixed text counts. */
  predicate Resolves(e: Engine, fixed: string, expr: string, v: string) {
    if TrimSpace(expr) != "" then e.evalString(TrimSpace(expr)) == Ok(v) else v == fixed
  }

  /** The action sets header h to v. */
  predicate Sets(e: Engine, act: PolicyAction, h: string, v: string) {
    && KindOf(act) == "set_header" && act.config != "" && e.parseHeader(act.config).Ok?
    && var cfg := e.parseHeader(act.config).value;
       TrimSpace(cfg.header) == h && h != "" && Resolves(e, cfg.value, cfg.valueExpr, v)
  }

  /** The action asks for the credential of this name. */
  ghost predicate Selects(e: Engine, act: PolicyAction, name: string) {
    && KindOf(act) == "use_credential" && act.config != "" && e.parseCredential(act.config).Ok?
    && var cfg := e.parseCredential(act.config).value;
       exists v :: Resolves(e, cfg.name, cfg.nameExpr, v) && TrimSpace(v) == name && name != ""
  }

  predicate Expression(e: Engine, expr: string, cause: string) {
    TrimSpace(expr) != "" && e.evalString(TrimSpace(expr)) == Err(cause)
  }

  /** Why an action fails. */
  ghost predicate FailsFor(e: Engine, act: PolicyAction, reason: Reason) {
    var kind := KindOf(act);
    match reason
    case BadConfig(c) =>
      act.config != "" && ((kind == "set_header" && e.parseHeader(act.config) == Err(c)) ||
                           (kind == "use_credential" && e.parseCredential(act.config) == Err(c)))
    case MissingHeader =>
      kind == "set_header" &&
      (act.config == "" ||
       (e.parseHeader(act.config).Ok? && TrimSpace(e.parseHeader(act.config).value.header) == ""))
    case BadValue(c) =>
      act.config != "" &&
      ((kind == "set_header" && e.parseHeader(act.config).Ok? &&
        var cfg := e.parseHeader(act.config).value; TrimSpace(cfg.header) != "" && Expression(e, cfg.valueExpr, c)) ||
       (kind == "use_credential" && e.parseCredential(act.config).Ok? &&
        Expression(e, e.parseCredential(act.config).value.nameExpr, c)))
    case EmptyCredential =>
      kind == "use_credential" &&
      (act.config == "" ||
       (e.parseCredential(act.config).Ok? &&
        var cfg := e.parseCredential(act.config).value;
        exists v :: Resolves(e, cfg.name, cfg.nameExpr, v) && TrimSpace(v) == ""))
    case UnknownAction(k) =>
      k == act.kind && kind !in {"", "deny", "allow", "set_header", "use_credential"}
    case _ => false
  }

  lemma HeaderEffectIs(e: Engine, act: PolicyAction)
    requires KindOf(act) == "set_header"
    ensures var effect := HeaderEffect(e, act.config);
            match effect
            case SetHeader(h, v) => Sets(e, act, h, v) && forall x, y :: Sets(e, act, x, y) ==> x == h && y == v
            case Fail(reason) => FailsFor(e, act, reason) && forall x, y :: !Sets(e, act, x, y)
            case _ => false
  {
  }

  lemma CredentialEffectIs(e: Engine, act: PolicyAction)
    requires KindOf(act) == "use_credential"
    ensures var effect := CredentialEffect(e, act.config);
            match effect
            case UseCredential(n) => Selects(e, act, n) && forall x :: Selects(e, act, x) ==> x == n
            case Fail(reason) => FailsFor(e, act, reason) && forall x :: !Selects(e, act, x)
            case _ => false
  {
    var cfg := e.CredentialConfigOf(act.config);
    assert TrimSpace("") == "";
    if cfg.Ok? && e.ResolveDynamicString(cfg.value.name, cfg.value.nameExpr).Ok? {
      assert Resolves(e, cfg.value.name, cfg.value.nameExpr,
                      e.ResolveDynamicString(cfg.value.name, cfg.value.nameExpr).value);
    }
  }

  /** The effect of an action, by its configured type. */
  lemma EffectIs(e: Engine, act: PolicyAction)
    ensures var effect := EffectOf(e, act);
            && (IsDenial(act) <==> effect == Deny) && (IsApproval(act) <==> effect == AllowNow)
            && (forall h, v :: Sets(e, act, h, v) <==> effect == SetHeader(h, v))
            && (forall n :: Selects(e, act, n) <==> effect == UseCredential(n))
            && (effect.Fail? ==> FailsFor(e, act, effect.reason))
  {
    if KindOf(act) == "set_header" {
      HeaderEffectIs(e, act);
    } else if KindOf(act) == "use_credential" {
      CredentialEffectIs(e, act);
    }
  }

  // ----- which action decides

  /** The action leaves the call open: it sets a header or asks for a credential. */
  ghost predicate GoesOn(e: Engine, act: PolicyAction) {
    (exists h, v :: Sets(e, act, h, v)) || (exists n :: Selects(e, act, n))
  }

  /** The policy leaves the call open: it does not match, or all its actions go on. */
  ghost predicate IsPassed(e: Engine, p: Policy) {
    || e.evalBool(p.expression) == Ok(false)
    || (e.evalBool(p.expression) == Ok(true) && p.actions != [] && forall act <- p.actions :: GoesOn(e, act))
  }

  ghost predicate ArePassed(e: Engine, ps: seq<Policy>) {
    forall p <- ps :: IsPassed(e, p)
  }

  /** The evaluation comes to action j of policy i. */
  ghost predicate ComesTo(e: Engine, ps: seq<Policy>, i: nat, j: nat) {
    && i < |ps| && ArePassed(e, ps[..i]) && e.evalBool(ps[i].expression) == Ok(true)
    && j < |ps[i].actions| && forall k :: 0 <= k < j ==> GoesOn(e, ps[i].actions[k])
  }

  /** The actions of all matching policies, in order. */
  function MatchedActions(e: Engine, ps: seq<Policy>): seq<PolicyAction> {
    if ps == [] then []
    else MatchedActions(e, ps[..|ps| - 1]) +
         if e.evalBool(ps[|ps| - 1].expression) == Ok(true) then ps[|ps| - 1].actions else []
  }

  // ----- quiet steps are the actions that went on

  ghost predicate StepsAre(e: Engine, steps: seq<Step>, acts: seq<PolicyAction>) {
    |steps| == |acts| && forall k :: 0 <= k < |acts| ==> steps[k].effect == EffectOf(e, acts[k])
  }

  lemma ActionsGoOn(e: Engine, steps: seq<Step>, acts: seq<PolicyAction>)
    requires StepsAre(e, steps, acts) && forall act <- acts :: GoesOn(e, act)
    ensures Quiet(steps)
  {
    forall s <- steps ensures !Terminal(s.effect) {
      var k :| 0 <= k < |steps| && steps[k] == s;
      assert acts[k] in acts;
      EffectIs(e, acts[k]);
    }
  }

  lemma StepsOfPassed(e: Engine, p: Policy)
    requires IsPassed(e, p)
    ensures StepsAre(e, StepsOf(e, p), MatchedActions(e, [p])) && Quiet(StepsOf(e, p))
  {
    assert [p][..0] == [];
    if e.evalBool(p.expression) == Ok(true) {
      ActionsGoOn(e, StepsOf(e, p), p.actions);
    }
  }

  lemma StepsAppended(e: Engine, a: seq<Step>, x: seq<PolicyAction>, b: seq<Step>, y: seq<PolicyAction>)
    requires StepsAre(e, a, x) && StepsAre(e, b, y)
    ensures StepsAre(e, a + b, x + y)
  {
  }

  lemma {:induction false} PassedSteps(e: Engine, ps: seq<Policy>)
    requires ArePassed(e, ps)
    ensures StepsAre(e, Plan(e, ps), MatchedActions(e, ps)) && Quiet(Plan(e, ps))
  {
    if ps != [] {
      var rest, p := ps[..|ps| - 1], ps[|ps| - 1];
      assert ps == rest + [p] && p in ps;
      PassedSteps(e, rest);
      PlanConcat(e, rest, [p]);
      PlanOfOne(e, p);
      StepsOfPassed(e, p);
      StepsAppended(e, Plan(e, rest), MatchedActions(e, rest), StepsOf(e, p), MatchedActions(e, [p]));
      assert [p][..0] == [];
    }
  }

  // ----- headers and credential of quiet steps

  /** v is what the last of xs to say anything says. */
  ghost predicate IsLastSaid<T(!new), V(!new)>(xs: seq<T>, says: (T, V) -> bool, v: V) {
    exists k :: 0 <= k < |xs| && says(xs[k], v) && forall l, w :: k < l < |xs| ==> !says(xs[l], w)
  }

  lemma SaidLast<T(!new), V(!new)>(xs: seq<T>, x: T, says: (T, V) -> bool, v: V)
    requires says(x, v)
    ensures IsLastSaid(xs + [x], says, v)
  {
    assert (xs + [x])[|xs|] == x;
  }

  lemma SaidBefore<T(!new), V(!new)>(xs: seq<T>, x: T, says: (T, V) -> bool, v: V)
    requires forall w :: !says(x, w)
    ensures IsLastSaid(xs + [x], says, v) <==> IsLastSaid(xs, says, v)
  {
    var all := xs + [x];
    assert all[|xs|] == x && forall l :: 0 <= l < |xs| ==> all[l] == xs[l];
    if IsLastSaid(xs, says, v) {
      var k :| 0 <= k < |xs| && says(xs[k], v) && forall l, w :: k < l < |xs| ==> !says(xs[l], w);
      assert says(all[k], v);
    }
    if IsLastSaid(all, says, v) {
      var k :| 0 <= k < |all| && says(all[k], v) && forall l, w :: k < l < |all| ==> !says(all[l], w);
      assert says(xs[k], v);
      forall l, w | k < l < |xs| ensures !says(xs[l], w) {
        assert !says(all[l], w);
      }
    }
  }

  lemma SaidOnlyLast<T(!new), V(!new)>(xs: seq<T>, x: T, says: (T, V) -> bool, v: V)
    requires IsLastSaid(xs + [x], says, v) && exists w :: says(x, w)
    ensures says(x, v)
  {
    var all := xs + [x];
    var k :| 0 <= k < |all| && says(all[k], v) && forall l, w :: k < l < |all| ==> !says(all[l], w);
    var w :| says(x, w);
    assert says(all[|xs|], w);
  }

  ghost function To<A>(sets: (A, string, string) -> bool, h: string): (A, string) -> bool {
    (a, v) => sets(a, h, v)
  }

  /** Headers and credential are what the last of xs to set them says. */
  ghost predicate CarriesSaid<A(!new)>(xs: seq<A>, d: Decision, sets: (A, string, string) -> bool,
                                       selects: (A, string) -> bool) {
    && (forall h, v :: h in d.headers && d.headers[h] == v <==> IsLastSaid(xs, To(sets, h), v))
    && (forall n :: n != "" ==> (d.credentialName == n <==> IsLastSaid(xs, selects, n)))
  }

  lemma HeaderGrows<A(!new)>(steps: seq<Step>, xs: seq<A>, s: Step, x: A, sets: (A, string, string) -> bool,
                             h: string, v: string)
    requires forall w :: h in HeadersOf(steps) && HeadersOf(steps)[h] == w <==> IsLastSaid(xs, To(sets, h), w)
    requires forall w :: sets(x, h, w) <==> s.effect == SetHeader(h, w)
    ensures var headers := HeadersOf(steps + [s]);
            h in headers && headers[h] == v <==> IsLastSaid(xs + [x], To(sets, h), v)
  {
    var says := To(sets, h);
    DraftedAppend(steps, s);
    if s.effect.SetHeader? && s.effect.name == h {
      assert says(x, s.effect.value);
      if s.effect.value == v {
        SaidLast(xs, x, says, v);
      } else if IsLastSaid(xs + [x], says, v) {
        SaidOnlyLast(xs, x, says, v);
      }
    } else {
      SaidBefore(xs, x, says, v);
    }
  }

  lemma CredentialGrows<A(!new)>(steps: seq<Step>, xs: seq<A>, s: Step, x: A, selects: (A, string) -> bool, n: string)
    requires CredentialOf(steps) == n <==> IsLastSaid(xs, selects, n)
    requires forall m :: selects(x, m) <==> s.effect == UseCredential(m)
    ensures CredentialOf(steps + [s]) == n <==> IsLastSaid(xs + [x], selects, n)
  {
    DraftedAppend(steps, s);
    if s.effect.UseCredential? {
      assert selects(x, s.effect.name);
      if s.effect.name == n {
        SaidLast(xs, x, selects, n);
      } else if IsLastSaid(xs + [x], selects, n) {
        SaidOnlyLast(xs, x, selects, n);
      }
    } else {
      SaidBefore(xs, x, selects, n);
    }
  }

  lemma {:induction false} SaidIsCarried<A(!new)>(steps: seq<Step>, xs: seq<A>, sets: (A, string, string) -> bool,
                                                  selects: (A, string) -> bool)
    requires |steps| == |xs|
    requires forall k, h, v :: 0 <= k < |xs| ==> (sets(xs[k], h, v) <==> steps[k].effect == SetHeader(h, v))
    requires forall k, n :: 0 <= k < |xs| ==> (selects(xs[k], n) <==> steps[k].effect == UseCredential(n))
    ensures CarriesSaid(xs, Drafted(steps), sets, selects)
    decreases |xs|
  {
    if xs != [] {
      var last := |xs| - 1;
      var rest, before := steps[..last], xs[..last];
      assert steps == rest + [steps[last]] && xs == before + [xs[last]];
      SaidIsCarried(rest, before, sets, selects);
      forall h, v ensures h in HeadersOf(steps) && HeadersOf(steps)[h] == v <==> IsLastSaid(xs, To(sets, h), v) {
        HeaderGrows(rest, before, steps[last], xs[last], sets, h, v);
      }
      forall n | n != "" ensures CredentialOf(steps) == n <==> IsLastSaid(xs, selects, n) {
        CredentialGrows(rest, before, steps[last], xs[last], selects, n);
      }
    }
  }

  ghost function Setting(e: Engine): (PolicyAction, string, string) -> bool {
    (act, h, v) => Sets(e, act, h, v)
  }

  ghost function Selecting(e: Engine): (PolicyAction, string) -> bool {
    (act, name) => Selects(e, act, name)
  }

  /** Headers and credential are what the last of the actions to set them says. */
  ghost predicate Carries(e: Engine, acts: seq<PolicyAction>, d: Decision) {
    CarriesSaid(acts, d, Setting(e), Selecting(e))
  }

  lemma QuietStepsCarry(e: Engine, steps: seq<Step>, acts: seq<PolicyAction>)
    requires StepsAre(e, steps, acts)
    ensures Carries(e, acts, Drafted(steps))
  {
    forall k | 0 <= k < |acts|
      ensures (forall h, v :: Setting(e)(acts[k], h, v) <==> steps[k].effect == SetHeader(h, v))
      ensures forall n :: Selecting(e)(acts[k], n) <==> steps[k].effect == UseCredential(n)
    {
      EffectIs(e, acts[k]);
    }
    SaidIsCarried(steps, acts, Setting(e), Selecting(e));
  }

  // ----- the decision

  /** The plan as it stands when the evaluation comes to an action. */
  lemma PlanUpTo(e: Engine, ps: seq<Policy>, i: nat, j: nat) returns (done: seq<Step>, rest: seq<Step>)
    requires ComesTo(e, ps, i, j)
    ensures Plan(e, ps) == done + [Step(ps[i].name, j, EffectOf(e, ps[i].actions[j]))] + rest
    ensures Quiet(done) && StepsAre(e, done, MatchedActions(e, ps[..i]) + ps[i].actions[..j])
  {
    var p, before := ps[i], Plan(e, ps[..i]);
    var steps := StepsOf(e, p);
    assert ps == ps[..i] + [p] + ps[i + 1..];
    PassedSteps(e, ps[..i]);
    PlanConcat(e, ps[..i] + [p], ps[i + 1..]);
    PlanConcat(e, ps[..i], [p]);
    PlanOfOne(e, p);
    done, rest := before + steps[..j], steps[j + 1..] + Plan(e, ps[i + 1..]);
    SplitAt(before, steps, j);
    ConcatAssociative(before + steps[..j] + [steps[j]], steps[j + 1..], Plan(e, ps[i + 1..]));
    ActionsGoOn(e, steps[..j], p.actions[..j]);
  }

  /**
   The first action that does not go on decides: an untyped one or a denial denies in the name of its policy, an
   approval allows in its name with the headers and the credential set until then, any other fails with its policy and
   place.
   */
  lemma FirstDecidingAction(e: Engine, ps: seq<Policy>, i: nat, j: nat)
    requires ComesTo(e, ps, i, j)
    ensures var act, answer := ps[i].actions[j], Verdict(Plan(e, ps));
            && (IsDenial(act) ==> answer == Ok(Decision(false, ps[i].name, "", map[], "")))
            && (IsApproval(act) ==>
                  answer.Ok? && answer.value.allowed && answer.value.deniedBy == ""
                  && answer.value.matchedAllow == ps[i].name
                  && Carries(e, MatchedActions(e, ps[..i]) + ps[i].actions[..j], answer.value))
            && (!IsDenial(act) && !IsApproval(act) && !GoesOn(e, act) ==>
                  answer.Err? && answer.error.policy == ps[i].name && answer.error.index == j
                  && FailsFor(e, act, answer.error.reason))
  {
    var act := ps[i].actions[j];
    var done, rest := PlanUpTo(e, ps, i, j);
    EffectIs(e, act);
    if !GoesOn(e, act) {
      assert Terminal(EffectOf(e, act));
      VerdictAtStop(done, Step(ps[i].name, j, EffectOf(e, act)), rest);
      QuietStepsCarry(e, done, MatchedActions(e, ps[..i]) + ps[i].actions[..j]);
    }
  }

  /** A policy whose expression fails, or that matches without actions, fails the evaluation. */
  lemma BrokenPolicyFails(e: Engine, ps: seq<Policy>, i: nat)
    requires i < |ps| && ArePassed(e, ps[..i])
    ensures e.evalBool(ps[i].expression).Err? ==>
              Verdict(Plan(e, ps)) ==
              Err(PolicyError(ps[i].name, -1, BadExpression(e.evalBool(ps[i].expression).error)))
    ensures e.evalBool(ps[i].expression) == Ok(true) && ps[i].actions == [] ==>
              Verdict(Plan(e, ps)) == Err(PolicyError(ps[i].name, -1, NoActions))
  {
    var p, before := ps[i], Plan(e, ps[..i]);
    assert ps == ps[..i] + [p] + ps[i + 1..];
    PassedSteps(e, ps[..i]);
    PlanConcat(e, ps[..i] + [p], ps[i + 1..]);
    PlanConcat(e, ps[..i], [p]);
    PlanOfOne(e, p);
    if e.evalBool(p.expression).Err? || (e.evalBool(p.expression) == Ok(true) && p.actions == []) {
      VerdictAtStop(before, StepsOf(e, p)[0], Plan(e, ps[i + 1..]));
      assert StepsOf(e, p) == [StepsOf(e, p)[0]];
    }
  }

  /** When no policy decides, the call is allowed, in nobody's name. */
  lemma UndecidedIsAllowed(e: Engine, ps: seq<Policy>)
    requires ArePassed(e, ps)
    ensures var answer := Verdict(Plan(e, ps));
            answer.Ok? && answer.value.allowed && answer.value.deniedBy == "" && answer.value.matchedAllow == ""
            && Carries(e, MatchedActions(e, ps), answer.value)
  {
    PassedSteps(e, ps);
    VerdictAtEnd(Plan(e, ps));
    QuietStepsCarry(e, Plan(e, ps), MatchedActions(e, ps));
  }

  ghost predicate IsBroken(e: Engine, p: Policy) {
    e.evalBool(p.expression).Err? || (e.evalBool(p.expression) == Ok(true) && p.actions == [])
  }

  /** There is no other case: a list is passed, or comes to a broken policy, or to an action that decides. */
  lemma SomethingDecides(e: Engine, ps: seq<Policy>)
    ensures ArePassed(e, ps)
         || (exists i :: 0 <= i < |ps| && ArePassed(e, ps[..i]) && IsBroken(e, ps[i]))
         || (exists i: nat, j: nat :: ComesTo(e, ps, i, j) && !GoesOn(e, ps[i].actions[j]))
  {
    if !ArePassed(e, ps) {
      var i := FirstNotPassed(e, ps);
      var matched := e.evalBool(ps[i].expression);
      if !IsBroken(e, ps[i]) {
        assert matched == Ok(matched.value) && matched.value;
        var j := FirstNotGoingOn(e, ps[i].actions);
        assert ComesTo(e, ps, i, j);
      }
    }
  }

  lemma {:induction false} FirstNotPassed(e: Engine, ps: seq<Policy>) returns (i: nat)
    requires !ArePassed(e, ps)
    ensures i < |ps| && ArePassed(e, ps[..i]) && !IsPassed(e, ps[i])
  {
    var n := |ps| - 1;
    assert ps == ps[..n] + [ps[n]];
    if ArePassed(e, ps[..n]) {
      i := n;
    } else {
      i := FirstNotPassed(e, ps[..n]);
      assert ps[..n][..i] == ps[..i];
    }
  }

  lemma {:induction false} FirstNotGoingOn(e: Engine, acts: seq<PolicyAction>) returns (j: nat)
    requires exists act :: act in acts && !GoesOn(e, act)
    ensures j < |acts| && !GoesOn(e, acts[j]) && forall k :: 0 <= k < j ==> GoesOn(e, acts[k])
  {
    var n := |acts| - 1;
    assert acts == acts[..n] + [acts[n]];
    if act :| act in acts[..n] && !GoesOn(e, act) {
      j := FirstNotGoingOn(e, acts[..n]);
    } else {
      j := n;
    }
  }
}
