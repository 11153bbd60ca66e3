/**
 Policy evaluation: the enabled policies of an organization, by priority and then name, run their actions until one
 of them allows, denies or fails. The expression language and the action configuration parser are parameters.
 */
module PolicyEngine {
  import opened Collections
  import opened Strings
  import opened Snapshot
  import opened Sorting

  datatype HeaderConfig = HeaderConfig(header: string, value: string, valueExpr: string)

  datatype CredentialConfig = CredentialConfig(name: string, nameExpr: string)

  /** Expression evaluation under the variables of one request, and the parsers of action configurations. */
  datatype Engine = Engine(evalBool: string -> Result<bool, string>, evalString: string -> Result<string, string>,
                           parseHeader: string -> Result<HeaderConfig, string>,
                           parseCredential: string -> Result<CredentialConfig, string>)
  {
    /** A static value, unless an expression is configured. */
    function ResolveDynamicString(fixed: string, expr: string): Result<string, string> {
      if TrimSpace(expr) != "" then evalString(TrimSpace(expr)) else Ok(fixed)
    }

    function HeaderConfigOf(config: string): Result<HeaderConfig, string> {
      if config == "" then Ok(HeaderConfig("", "", "")) else parseHeader(config)
    }

    function CredentialConfigOf(config: string): Result<CredentialConfig, string> {
      if config == "" then Ok(CredentialConfig("", "")) else parseCredential(config)
    }
  }

  datatype Decision = Decision(allowed: bool, deniedBy: string, credentialName: string, headers: map<string, string>,
                               matchedAllow: string)

  datatype Reason = BadExpression(cause: string) | NoActions | BadConfig(cause: string) | MissingHeader
                  | BadValue(cause: string) | EmptyCredential | UnknownAction(kind: string)

  /** The failing policy; index is that of the failing action, or -1. */
  datatype PolicyError = PolicyError(policy: string, index: int, reason: Reason)

  // ----- the order policies run in

  predicate Applicable(p: Policy, org: string) {
    p.enabled && p.organizationId == org
  }

  function ApplicableTo(org: string): Policy -> bool {
    (p: Policy) => Applicable(p, org)
  }

  /** Higher priority first, then by name. */
  function RunsBefore(): (Policy, Policy) -> bool {
    (p: Policy, q: Policy) => p.priority > q.priority || (p.priority == q.priority && Less(p.name, q.name))
  }

  lemma RunsBeforeIsOrder()
    ensures IsOrder(RunsBefore())
  {
    var less := RunsBefore();
    forall p, q | less(p, q) ensures !less(q, p) {
      LessTotal(p.name, q.name);
    }
    forall p, q, r | less(p, q) && !less(r, q) ensures less(p, r) {
      LessTotal(q.name, r.name);
      if Less(p.name, q.name) && Less(q.name, r.name) {
        LessTransitive(p.name, q.name, r.name);
      }
    }
  }

  /** Policies of one rank have one priority and one name. */
  lemma RankIsPriorityAndName(p: Policy, q: Policy)
    ensures SameRankAs(RunsBefore(), p)(q) <==> p.priority == q.priority && p.name == q.name
  {
    LessTotal(p.name, q.name);
  }

  function SortedFor(policies: seq<Policy>, org: string): seq<Policy> {
    StableSort(RunsBefore(), Filter(policies, ApplicableTo(org)))
  }

  method SortedOrgPolicies(policies: seq<Policy>, org: string) returns (matched: seq<Policy>)
    ensures matched == SortedFor(policies, org)
    ensures Ordered(RunsBefore(), matched)
    ensures forall p :: p in matched <==> p in policies && p.enabled && p.organizationId == org
  {
    matched := [];
    for i := 0 to |policies|
      invariant matched == Filter(policies[..i], ApplicableTo(org))
    {
      assert policies[..i + 1][..i] == policies[..i];
      if !policies[i].enabled || policies[i].organizationId != org {
        continue;
      }
      matched := matched + [policies[i]];
    }
    assert policies[..|policies|] == policies;
    RunsBeforeIsOrder();
    StableSortSorts(RunsBefore(), matched);
    ghost var was := matched;
    matched := StableSort(RunsBefore(), matched);
    forall p ensures p in matched <==> p in was {
      assert p in multiset(matched) <==> p in multiset(was);
    }
  }

  /** Every applicable policy as often as it is given; priorities go down, and names up within a priority. */
  lemma SortedForRunsInOrder(policies: seq<Policy>, org: string, i: nat, j: nat)
    requires i < j < |SortedFor(policies, org)|
    ensures multiset(SortedFor(policies, org)) == multiset(Filter(policies, ApplicableTo(org)))
    ensures var p, q := SortedFor(policies, org)[i], SortedFor(policies, org)[j];
            p.priority > q.priority || (p.priority == q.priority && (p.name == q.name || Less(p.name, q.name)))
  {
    RunsBeforeIsOrder();
    StableSortSorts(RunsBefore(), Filter(policies, ApplicableTo(org)));
    LessTotal(SortedFor(policies, org)[i].name, SortedFor(policies, org)[j].name);
  }

  predicate RanksAreOwn(ps: seq<Policy>) {
    forall i, j :: 0 <= i < j < |ps| ==> ps[i].priority != ps[j].priority || ps[i].name != ps[j].name
  }

  /** The order does not depend on how the list is given, when no two applicable policies share priority and name. */
  lemma SortedForIsCanonical(a: seq<Policy>, b: seq<Policy>, org: string)
    requires multiset(a) == multiset(b) && RanksAreOwn(Filter(a, ApplicableTo(org)))
    ensures SortedFor(a, org) == SortedFor(b, org)
  {
    var x := Filter(a, ApplicableTo(org));
    FilterKeepsMultisets(a, b, ApplicableTo(org));
    RunsBeforeIsOrder();
    forall i, j | 0 <= i < j < |x| ensures RunsBefore()(x[i], x[j]) || RunsBefore()(x[j], x[i]) {
      RankIsPriorityAndName(x[i], x[j]);
    }
    SortIgnoresListOrder(RunsBefore(), x, Filter(b, ApplicableTo(org)));
  }

  // ----- what the policies do

  datatype Effect = Deny | AllowNow | SetHeader(name: string, value: string) | UseCredential(name: string)
                  | Fail(reason: Reason)

  predicate Terminal(e: Effect) {
    e.Deny? || e.AllowNow? || e.Fail?
  }

  function HeaderEffect(e: Engine, config: string): Effect {
    match e.HeaderConfigOf(config)
    case Err(c) => Fail(BadConfig(c))
    case Ok(cfg) =>
      if TrimSpace(cfg.header) == "" then Fail(MissingHeader)
      else
        match e.ResolveDynamicString(cfg.value, cfg.valueExpr)
        case Err(c) => Fail(BadValue(c))
        case Ok(v) => SetHeader(TrimSpace(cfg.header), v)
  }

  function CredentialEffect(e: Engine, config: string): Effect {
    match e.CredentialConfigOf(config)
    case Err(c) => Fail(BadConfig(c))
    case Ok(cfg) =>
      match e.ResolveDynamicString(cfg.name, cfg.nameExpr)
      case Err(c) => Fail(BadValue(c))
      case Ok(v) => if TrimSpace(v) == "" then Fail(EmptyCredential) else UseCredential(TrimSpace(v))
  }

  /** An action without a type denies. */
  function EffectOf(e: Engine, act: PolicyAction): Effect {
    var kind := TrimSpace(ToLower(act.kind));
    if kind == "" || kind == "deny" then Deny
    else if kind == "allow" then AllowNow
    else if kind == "set_header" then HeaderEffect(e, act.config)
    else if kind == "use_credential" then CredentialEffect(e, act.config)
    else Fail(UnknownAction(act.kind))
  }

  function KindOf(act: PolicyAction): string {
    TrimSpace(ToLower(act.kind))
  }

  predicate IsDenial(act: PolicyAction) {
    KindOf(act) == "" || KindOf(act) == "deny"
  }

  predicate IsApproval(act: PolicyAction) {
    KindOf(act) == "allow"
  }

  datatype Step = Step(policy: string, index: int, effect: Effect)

  function ActionSteps(e: Engine, name: string, actions: seq<PolicyAction>): seq<Step> {
    seq(|actions|, i requires 0 <= i < |actions| => Step(name, i, EffectOf(e, actions[i])))
  }

  /** The steps one policy takes, if nothing stops it. */
  function StepsOf(e: Engine, p: Policy): seq<Step> {
    match e.evalBool(p.expression)
    case Err(c) => [Step(p.name, -1, Fail(BadExpression(c)))]
    case Ok(matched) =>
      if !matched then []
      else if p.actions == [] then [Step(p.name, -1, Fail(NoActions))]
      else ActionSteps(e, p.name, p.actions)
  }

  function Plan(e: Engine, ps: seq<Policy>): seq<Step> {
    if ps == [] then [] else StepsOf(e, ps[0]) + Plan(e, ps[1..])
  }

  /** The plan up to its first terminal step. */
  function Cut(steps: seq<Step>): seq<Step> {
    if steps == [] then []
    else if Terminal(steps[0].effect) then [steps[0]]
    else [steps[0]] + Cut(steps[1..])
  }

  function SetsHeader(): Step -> bool {
    (s: Step) => s.effect.SetHeader?
  }

  function HeaderName(): Step -> string {
    (s: Step) => if s.effect.SetHeader? then s.effect.name else ""
  }

  function HeaderValue(): Step -> string {
    (s: Step) => if s.effect.SetHeader? then s.effect.value else ""
  }

  function UsesCredential(): Step -> bool {
    (s: Step) => s.effect.UseCredential?
  }

  function HeadersOf(steps: seq<Step>): map<string, string> {
    IndexBy(steps, SetsHeader(), HeaderName(), HeaderValue())
  }

  function CredentialOf(steps: seq<Step>): string {
    var last := LastMatch(steps, UsesCredential());
    if last.Some? && last.value.effect.UseCredential? then last.value.effect.name else ""
  }

  /** The decision a plan amounts to: its cut alone decides. */
  function Verdict(plan: seq<Step>): Result<Decision, PolicyError> {
    VerdictOfCut(Cut(plan))
  }

  function VerdictOfCut(c: seq<Step>): Result<Decision, PolicyError> {
    if c == [] then Ok(Decision(true, "", "", map[], ""))
    else
      var last := c[|c| - 1];
      match last.effect
      case Fail(reason) => Err(PolicyError(last.policy, last.index, reason))
      case Deny => Ok(Decision(false, last.policy, "", map[], ""))
      case AllowNow => Ok(Decision(true, "", CredentialOf(c), HeadersOf(c), last.policy))
      case _ => Ok(Decision(true, "", CredentialOf(c), HeadersOf(c), ""))
  }

  predicate Quiet(steps: seq<Step>) {
    forall s <- steps :: !Terminal(s.effect)
  }

  lemma {:induction false} CutAfterQuiet(a: seq<Step>, b: seq<Step>)
    requires Quiet(a)
    ensures Cut(a + b) == a + Cut(b)
  {
    if a == [] {
      assert a + b == b && a + Cut(b) == Cut(b);
    } else {
      assert a[0] in a;
      assert (a + b)[1..] == a[1..] + b;
      CutAfterQuiet(a[1..], b);
    }
  }

  lemma {:induction false} CutIsFinal(a: seq<Step>, b: seq<Step>)
    requires !Quiet(a)
    ensures Cut(a + b) == Cut(a)
  {
    assert (a + b)[0] == a[0];
    if !Terminal(a[0].effect) {
      assert a == [a[0]] + a[1..];
      assert (a + b)[1..] == a[1..] + b;
      CutIsFinal(a[1..], b);
    }
  }

  lemma {:induction false} PlanConcat(e: Engine, a: seq<Policy>, b: seq<Policy>)
    ensures Plan(e, a + b) == Plan(e, a) + Plan(e, b)
  {
    if a == [] {
      assert a + b == b;
    } else {
      PlanConcat(e, a[1..], b);
      assert (a + b)[1..] == a[1..] + b;
      ConcatAssociative(StepsOf(e, a[0]), Plan(e, a[1..]), Plan(e, b));
    }
  }

  /** Once a policy has decided, nothing of lower rank matters: not even an expression that would fail. */
  lemma NothingAfterDecisionMatters(e: Engine, first: seq<Policy>, rest: seq<Policy>)
    requires !Quiet(Plan(e, first))
    ensures Verdict(Plan(e, first + rest)) == Verdict(Plan(e, first))
  {
    PlanConcat(e, first, rest);
    VerdictIsFinal(Plan(e, first), Plan(e, rest));
  }

  /** Within a policy as well: actions after the deciding one do not run. */
  lemma NothingAfterTerminalActionMatters(e: Engine, p: Policy, more: seq<PolicyAction>, rest: seq<Policy>)
    requires e.evalBool(p.expression) == Ok(true)
    requires p.actions != [] && Terminal(EffectOf(e, p.actions[|p.actions| - 1]))
    ensures Verdict(Plan(e, [p.(actions := p.actions + more)] + rest)) == Verdict(Plan(e, [p]))
  {
    var longer := p.(actions := p.actions + more);
    PlanOfOne(e, p);
    PlanOfOne(e, longer);
    PlanConcat(e, [longer], rest);
    StepsExtend(e, p, more);
    var a, tail := StepsOf(e, p), StepsOf(e, longer)[|p.actions|..];
    Regrouped(StepsOf(e, longer), |p.actions|, Plan(e, rest));
    CutIsFinal(a, tail + Plan(e, rest));
  }

  lemma Regrouped<T>(a: seq<T>, k: nat, b: seq<T>)
    requires k <= |a|
    ensures a + b == a[..k] + (a[k..] + b)
  {
  }

  lemma SplitAt<T>(a: seq<T>, b: seq<T>, k: nat)
    requires k < |b|
    ensures a + b == a + b[..k] + [b[k]] + b[k + 1..]
    ensures a + b[..k + 1] == a + b[..k] + [b[k]]
  {
  }

  lemma StepsExtend(e: Engine, p: Policy, more: seq<PolicyAction>)
    requires e.evalBool(p.expression) == Ok(true)
    requires p.actions != [] && Terminal(EffectOf(e, p.actions[|p.actions| - 1]))
    ensures |StepsOf(e, p)| == |p.actions| <= |StepsOf(e, p.(actions := p.actions + more))|
    ensures StepsOf(e, p.(actions := p.actions + more))[..|p.actions|] == StepsOf(e, p)
    ensures !Quiet(StepsOf(e, p))
  {
    var a := StepsOf(e, p);
    assert a[|a| - 1] in a;
  }

  lemma PlanOfOne(e: Engine, p: Policy)
    ensures Plan(e, [p]) == StepsOf(e, p)
  {
    assert [p][1..] == [];
    assert StepsOf(e, p) + [] == StepsOf(e, p);
  }

  /** Every header of an allowed call carries the last value written before the cut, the credential likewise. */
  lemma LastWriteWins(plan: seq<Step>, h: string)
    requires Verdict(plan).Ok? && Verdict(plan).value.allowed
    ensures var d, last := Verdict(plan).value, LastMatch(Cut(plan), Matches(SetsHeader(), HeaderName(), h));
            (h in d.headers <==> last.Some?) && (last.Some? ==> d.headers[h] == last.value.effect.value)
  {
    IndexIsLastMatch(Cut(plan), SetsHeader(), HeaderName(), HeaderValue(), h);
  }

  /** A cut is the whole plan without a terminal step, or it ends in the plan's first. */
  lemma {:induction false} CutEndsAtFirstTerminal(plan: seq<Step>)
    ensures |Cut(plan)| <= |plan| && Cut(plan) == plan[..|Cut(plan)|]
    ensures Quiet(plan) ==> Cut(plan) == plan
    ensures !Quiet(plan) ==>
              var c := Cut(plan);
              c != [] && Terminal(c[|c| - 1].effect) && forall i :: 0 <= i < |c| - 1 ==> !Terminal(c[i].effect)
  {
    if plan != [] && !Terminal(plan[0].effect) {
      CutEndsAtFirstTerminal(plan[1..]);
      assert plan == [plan[0]] + plan[1..];
    }
  }

  /** The decision is the same for every order of the policy list, when ranks are distinct. */
  lemma DecisionIgnoresListOrder(e: Engine, a: seq<Policy>, b: seq<Policy>, org: string)
    requires multiset(a) == multiset(b) && RanksAreOwn(Filter(a, ApplicableTo(org)))
    ensures Verdict(Plan(e, SortedFor(a, org))) == Verdict(Plan(e, SortedFor(b, org)))
  {
    SortedForIsCanonical(a, b, org);
  }

  // ----- the evaluator's loop

  /** The decision being built; actions update it in place. */
  class Draft {
    var allowed: bool
    var deniedBy: string
    var credentialName: string
    var headers: map<string, string>
    var matchedAllow: string

    constructor ()
      ensures Value() == Decision(true, "", "", map[], "")
    {
      allowed, deniedBy, credentialName, headers, matchedAllow := true, "", "", map[], "";
    }

    function Value(): Decision
      reads this
    {
      Decision(allowed, deniedBy, credentialName, headers, matchedAllow)
    }

    method ApplyAction(e: Engine, policy: string, act: PolicyAction) returns (stop: bool, failure: Option<Reason>)
      modifies this
      ensures var effect := EffectOf(e, act);
              match effect
              case Deny => stop && failure.None? && Value() == Decision(false, policy, "", map[], "")
              case AllowNow => stop && failure.None? && Value() == old(Value()).(matchedAllow := policy)
              case SetHeader(h, v) =>
                !stop && failure.None? && Value() == old(Value()).(headers := old(headers)[h := v])
              case UseCredential(n) => !stop && failure.None? && Value() == old(Value()).(credentialName := n)
              case Fail(reason) => failure == Some(reason) && Value() == old(Value())
      ensures IsDenial(act) ==> stop && failure.None? && Value() == Decision(false, policy, "", map[], "")
      ensures IsApproval(act) ==> stop && failure.None? && Value() == old(Value()).(matchedAllow := policy)
      ensures stop ==> IsDenial(act) || IsApproval(act)
      ensures KindOf(act) !in {"", "deny", "allow", "set_header", "use_credential"} ==>
                failure == Some(UnknownAction(act.kind))
    {
      stop, failure := false, None;
      var kind := TrimSpace(ToLower(act.kind));
      if kind == "" {
        kind := "deny";
      }
      if kind == "deny" {
        allowed, deniedBy, credentialName, headers, matchedAllow := false, policy, "", map[], "";
        stop := true;
      } else if kind == "allow" {
        matchedAllow := policy;
        stop := true;
      } else if kind == "set_header" {
        var cfg := e.HeaderConfigOf(act.config);
        if cfg.Err? {
          return false, Some(BadConfig(cfg.error));
        }
        var h := TrimSpace(cfg.value.header);
        if h == "" {
          return false, Some(MissingHeader);
        }
        var val := e.ResolveDynamicString(cfg.value.value, cfg.value.valueExpr);
        if val.Err? {
          return false, Some(BadValue(val.error));
        }
        headers := headers[h := val.value];
      } else if kind == "use_credential" {
        var cfg := e.CredentialConfigOf(act.config);
        if cfg.Err? {
          return false, Some(BadConfig(cfg.error));
        }
        var name := e.ResolveDynamicString(cfg.value.name, cfg.value.nameExpr);
        if name.Err? {
          return false, Some(BadValue(name.error));
        }
        if TrimSpace(name.value) == "" {
          return false, Some(EmptyCredential);
        }
        credentialName := TrimSpace(name.value);
      } else {
        return false, Some(UnknownAction(act.kind));
      }
    }
  }

  /** What the draft holds after steps that did not stop the run. */
  function Drafted(steps: seq<Step>): Decision {
    Decision(true, "", CredentialOf(steps), HeadersOf(steps), "")
  }

  lemma DraftedAppend(steps: seq<Step>, s: Step)
    ensures HeadersOf(steps + [s]) ==
            if s.effect.SetHeader? then HeadersOf(steps)[s.effect.name := s.effect.value] else HeadersOf(steps)
    ensures CredentialOf(steps + [s]) == if s.effect.UseCredential? then s.effect.name else CredentialOf(steps)
  {
    assert (steps + [s])[..|steps|] == steps;
  }

  /** The verdict, once the steps done have not stopped the run and the next one does. */
  lemma VerdictAtStop(steps: seq<Step>, s: Step, rest: seq<Step>)
    requires Quiet(steps) && Terminal(s.effect)
    ensures Verdict(steps + [s] + rest) ==
            match s.effect
            case Fail(reason) => Err(PolicyError(s.policy, s.index, reason))
            case Deny => Ok(Decision(false, s.policy, "", map[], ""))
            case _ => Ok(Drafted(steps).(matchedAllow := s.policy))
  {
    assert steps + [s] + rest == steps + ([s] + rest);
    CutAfterQuiet(steps, [s] + rest);
    DraftedAppend(steps, s);
  }

  lemma VerdictAtEnd(steps: seq<Step>)
    requires Quiet(steps)
    ensures Verdict(steps) == Ok(Drafted(steps))
  {
    CutAfterQuiet(steps, []);
    assert steps + [] == steps;
    if steps != [] {
      assert steps[|steps| - 1] in steps;
    }
  }

  /** The actions of one matching policy; what is answered, if anything, is final. */
  method ApplyActions(e: Engine, p: Policy, draft: Draft, ghost steps: seq<Step>)
    returns (answer: Option<Result<Decision, PolicyError>>)
    requires Quiet(steps) && draft.Value() == Drafted(steps)
    modifies draft
    ensures var done := steps + ActionSteps(e, p.name, p.actions);
            if answer.None? then Quiet(done) && draft.Value() == Drafted(done)
            else !Quiet(done) && answer.value == Verdict(done)
  {
    ghost var all := ActionSteps(e, p.name, p.actions);
    assert steps + all[..0] == steps;
    for j := 0 to |p.actions|
      invariant Quiet(steps + all[..j]) && draft.Value() == Drafted(steps + all[..j])
    {
      ghost var done, s := steps + all[..j], all[j];
      SplitAt(steps, all, j);
      assert s in steps + all;
      var stop, failure := draft.ApplyAction(e, p.name, p.actions[j]);
      if failure.Some? {
        VerdictAtStop(done, s, all[j + 1..]);
        return Some(Err(PolicyError(p.name, j, failure.value)));
      }
      if stop {
        VerdictAtStop(done, s, all[j + 1..]);
        return Some(Ok(draft.Value()));
      }
      DraftedAppend(done, s);
    }
    assert all[..|all|] == all;
    return None;
  }

  /** One policy of the ordered list. */
  method ApplyPolicy(e: Engine, p: Policy, draft: Draft, ghost steps: seq<Step>)
    returns (answer: Option<Result<Decision, PolicyError>>)
    requires Quiet(steps) && draft.Value() == Drafted(steps)
    modifies draft
    ensures var done := steps + StepsOf(e, p);
            if answer.None? then Quiet(done) && draft.Value() == Drafted(done)
            else !Quiet(done) && answer.value == Verdict(done)
  {
    assert steps + [] == steps;
    var matched := e.evalBool(p.expression);
    if matched.Err? {
      FailsAlone(steps, Step(p.name, -1, Fail(BadExpression(matched.error))));
      return Some(Err(PolicyError(p.name, -1, BadExpression(matched.error))));
    }
    if !matched.value {
      return None;
    }
    if p.actions == [] {
      FailsAlone(steps, Step(p.name, -1, Fail(NoActions)));
      return Some(Err(PolicyError(p.name, -1, NoActions)));
    }
    answer := ApplyActions(e, p, draft, steps);
  }

  lemma FailsAlone(steps: seq<Step>, s: Step)
    requires Quiet(steps) && s.effect.Fail?
    ensures !Quiet(steps + [s]) && Verdict(steps + [s]) == Err(PolicyError(s.policy, s.index, s.effect.reason))
  {
    VerdictAtStop(steps, s, []);
    assert steps + [s] + [] == steps + [s];
    assert s in steps + [s];
  }

  lemma VerdictIsFinal(done: seq<Step>, rest: seq<Step>)
    requires !Quiet(done)
    ensures Verdict(done + rest) == Verdict(done)
  {
    CutIsFinal(done, rest);
  }

  lemma PlanUnfolds(e: Engine, sorted: seq<Policy>, steps: seq<Step>, i: nat)
    requires i < |sorted|
    ensures steps + Plan(e, sorted[i..]) == (steps + StepsOf(e, sorted[i])) + Plan(e, sorted[i + 1..])
  {
    assert sorted[i..][1..] == sorted[i + 1..];
    ConcatAssociative(steps, StepsOf(e, sorted[i]), Plan(e, sorted[i + 1..]));
  }

  /** Evaluates the policies of an organization, policy by policy: the verdict of their plan. */
  method Apply(e: Engine, policies: seq<Policy>, org: string) returns (r: Result<Decision, PolicyError>)
    ensures r == Verdict(Plan(e, SortedFor(policies, org)))
  {
    var draft := new Draft();
    var sorted := SortedOrgPolicies(policies, org);
    ghost var steps: seq<Step> := [];
    for i := 0 to |sorted|
      invariant Quiet(steps) && draft.Value() == Drafted(steps)
      invariant Plan(e, sorted) == steps + Plan(e, sorted[i..])
    {
      ghost var done, rest := steps + StepsOf(e, sorted[i]), Plan(e, sorted[i + 1..]);
      PlanUnfolds(e, sorted, steps, i);
      var answer := ApplyPolicy(e, sorted[i], draft, steps);
      if answer.Some? {
        VerdictIsFinal(done, rest);
        return answer.value;
      }
      steps := done;
    }
    assert steps + Plan(e, sorted[|sorted|..]) == steps;
    VerdictAtEnd(steps);
    return Ok(draft.Value());
  }
}
