/**
 Ownership over whole runs. A role change reads the actor's role, the target's role and the number of owners, and
 writes later; other operations may come in between. How many changes may be under way at once decides what is kept.
 */
module OwnershipRuns {
  import opened Collections
  import opened Runs
  import opened Tenancy

  lemma OnlyChange<C>(changes: map<nat, C>, c: nat)
    requires |changes| <= 1 && c in changes
    ensures changes.Keys == {c}
  {
    var rest := changes.Keys - {c};
    assert |rest| == 0;
  }

  lemma FirstChange<C>(changes: map<nat, C>, c: nat, x: C)
    requires c !in changes && |changes[c := x]| <= 1
    ensures changes == map[]
  {
    assert changes[c := x].Keys == changes.Keys + {c};
    assert |changes.Keys| == 0;
  }

  // ----- one organization

  datatype Phase = ActorChecked | TargetRead(read: string) | Guarded

  datatype Change = Change(actor: string, target: string, role: string, phase: Phase)

  /** invites: the role of every pending invite. changes: the role changes under way. */
  datatype Org = Org(members: Members, invites: map<nat, string>, changes: map<nat, Change>)

  function Founded(owner: string): Org {
    Org(map[owner := OWNER], map[], map[])
  }

  /**
   One step of the organization's life. Accepting adds the member first; the invite is closed by a step of its own, if
   at all. A change may give up, refused or failed, at any point.
   */
  datatype Move =
    | AddUser(user: string)
    | SendInvite(invite: nat)
    | CloseInvite(invite: nat)
    | Accept(invite: nat, user: string)
    | CheckActor(change: nat, actor: string, target: string, role: string)
    | ReadTarget(change: nat)
    | Guard(change: nat)
    | Write(change: nat)
    | GiveUp(change: nat)

  predicate CanMove(s: Org, m: Move) {
    match m
    case Accept(i, _) => i in s.invites
    case CheckActor(c, actor, _, role) => c !in s.changes && IsRole(role)
      && actor in s.members && s.members[actor] == OWNER
    case ReadTarget(c) => c in s.changes && s.changes[c].phase == ActorChecked && s.changes[c].target in s.members
    case Guard(c) =>
      c in s.changes && s.changes[c].phase.TargetRead? &&
      var Change(actor, target, role, phase) := s.changes[c];
      SoleOwnerSafe(actor, target, phase.read, role, |Owners(s.members)|)
    case Write(c) => c in s.changes && s.changes[c].phase == Guarded
    case _ => true
  }

  function InPhase(s: Org, c: nat, phase: Phase): Org
    requires c in s.changes
  {
    s.(changes := s.changes[c := s.changes[c].(phase := phase)])
  }

  function Moved(s: Org, m: Move): Org
    requires CanMove(s, m)
  {
    match m
    case AddUser(user) => s.(members := Added(s.members, user, MEMBER))
    case SendInvite(i) => s.(invites := s.invites[i := MEMBER])
    case CloseInvite(i) => s.(invites := s.invites - {i})
    case Accept(i, user) => s.(members := Added(s.members, user, if s.invites[i] == "" then MEMBER else s.invites[i]))
    case CheckActor(c, actor, target, role) =>
      s.(changes := s.changes[c := Change(actor, target, role, ActorChecked)])
    case ReadTarget(c) => InPhase(s, c, TargetRead(s.members[s.changes[c].target]))
    case Guard(c) => InPhase(s, c, Guarded)
    case Write(c) =>
      var Change(actor, target, role, _) := s.changes[c];
      s.(members := RoleChanged(s.members, actor, target, role, DemotesActor(actor, target, role)),
         changes := s.changes - {c})
    case GiveUp(c) => s.(changes := s.changes - {c})
  }

  ghost function OrgStep(cap: nat): (Org, Org) -> bool {
    (s: Org, t: Org) => |t.changes| <= cap && exists m :: CanMove(s, m) && t == Moved(s, m)
  }

  /** What a change has learned still holds when it is the only one. */
  predicate StillTrue(m: Members, c: Change) {
    IsRole(c.role) && c.actor in m && m[c.actor] == OWNER &&
    match c.phase
    case ActorChecked => true
    case TargetRead(r) => c.target in m && m[c.target] == r
    case Guarded => c.target in m && SoleOwnerSafe(c.actor, c.target, m[c.target], c.role, |Owners(m)|)
  }

  predicate OrgInv(s: Org) {
    HasOneOwner(s.members) && |s.changes| <= 1 &&
    (forall i <- s.invites :: s.invites[i] == MEMBER) &&
    (forall c <- s.changes :: StillTrue(s.members, s.changes[c]))
  }

  lemma WriteKeepsInv(s: Org, c: nat)
    requires OrgInv(s) && CanMove(s, Write(c))
    ensures OrgInv(Moved(s, Write(c)))
  {
    var Change(actor, target, role, _) := s.changes[c];
    OnlyChange(s.changes, c);
    OrgRoleUpdateKeepsOneOwner(s.members, actor, target, role);
    assert Moved(s, Write(c)).changes.Keys == {};
  }

  lemma AddingKeepsInv(s: Org, user: string)
    requires OrgInv(s)
    ensures OrgInv(s.(members := Added(s.members, user, MEMBER)))
  {
    AddedKeepsOwners(s.members, user, MEMBER);
  }

  lemma PhaseKeepsInv(s: Org, c: nat, phase: Phase)
    requires OrgInv(s) && c in s.changes && StillTrue(s.members, s.changes[c].(phase := phase))
    ensures OrgInv(InPhase(s, c, phase))
  {
    OnlyChange(s.changes, c);
    assert InPhase(s, c, phase).changes.Keys == {c};
    assert |InPhase(s, c, phase).changes.Keys| == 1;
  }

  lemma BeginningKeepsInv(s: Org, c: nat, actor: string, target: string, role: string)
    requires OrgInv(s) && CanMove(s, CheckActor(c, actor, target, role))
    requires |Moved(s, CheckActor(c, actor, target, role)).changes| <= 1
    ensures OrgInv(Moved(s, CheckActor(c, actor, target, role)))
  {
    FirstChange(s.changes, c, Change(actor, target, role, ActorChecked));
  }

  lemma MoveKeepsInv(s: Org, m: Move)
    requires OrgInv(s) && CanMove(s, m) && |Moved(s, m).changes| <= 1
    ensures OrgInv(Moved(s, m))
  {
    match m {
      case AddUser(user) => AddingKeepsInv(s, user);
      case Accept(_, user) => AddingKeepsInv(s, user);
      case CheckActor(c, actor, target, role) => BeginningKeepsInv(s, c, actor, target, role);
      case ReadTarget(c) => PhaseKeepsInv(s, c, TargetRead(s.members[s.changes[c].target]));
      case Guard(c) => PhaseKeepsInv(s, c, Guarded);
      case Write(c) => WriteKeepsInv(s, c);
      case _ =>
    }
  }

  lemma FoundedInv(owner: string)
    ensures OrgInv(Founded(owner))
  {
    assert Owners(map[owner := OWNER]) == {owner};
  }

  lemma StepKeepsInv(s: Org, t: Org)
    requires OrgInv(s) && OrgStep(1)(s, t)
    ensures OrgInv(t)
  {
    var m :| CanMove(s, m) && t == Moved(s, m);
    MoveKeepsInv(s, m);
  }

  lemma {:induction false} RunKeepsInv(owner: string, run: seq<Org>, i: nat)
    requires IsRun(OrgStep(1), run) && run[0] == Founded(owner) && i < |run|
    ensures OrgInv(run[i])
  {
    if i == 0 {
      FoundedInv(owner);
    } else {
      RunKeepsInv(owner, run, i - 1);
      StepKeepsInv(run[i - 1], run[i]);
    }
  }

  lemma OrgReaches(cap: nat, from: Org, s: Org, m: Move, t: Org)
    requires Reaches(OrgStep(cap), from, s) && CanMove(s, m) && t == Moved(s, m) && |t.changes| <= cap
    ensures Reaches(OrgStep(cap), from, t)
  {
    ReachesStep(OrgStep(cap), from, s, t);
  }

  /** A change that passes its guard while nobody else moves. */
  lemma ChangeIsGuarded(cap: nat, from: Org, s: Org, c: nat, actor: string, target: string, role: string, t: Org)
    requires Reaches(OrgStep(cap), from, s) && |s.changes| < cap && c !in s.changes
    requires IsRole(role) && actor in s.members && s.members[actor] == OWNER && target in s.members
    requires SoleOwnerSafe(actor, target, s.members[target], role, |Owners(s.members)|)
    requires t == s.(changes := s.changes[c := Change(actor, target, role, Guarded)])
    ensures Reaches(OrgStep(cap), from, t) && |t.changes| == |s.changes| + 1
  {
    var s1 := Moved(s, CheckActor(c, actor, target, role));
    OrgReaches(cap, from, s, CheckActor(c, actor, target, role), s1);
    var s2 := Moved(s1, ReadTarget(c));
    assert s2.changes.Keys == s1.changes.Keys && |s2.changes| == |s2.changes.Keys|;
    OrgReaches(cap, from, s1, ReadTarget(c), s2);
    assert t.changes.Keys == s1.changes.Keys && |t.changes| == |t.changes.Keys|;
    assert Moved(s2, Guard(c)).changes == t.changes;
    OrgReaches(cap, from, s2, Guard(c), t);
  }

  const PEERS := map["a" := OWNER, "b" := MEMBER, "c" := MEMBER]

  const TRANSFERS := map[0 as nat := Change("a", "b", OWNER, Guarded), 1 := Change("a", "c", OWNER, Guarded)]

  /** Both transfers of one owner get past their guards. */
  lemma BothPass(cap: nat)
    requires cap >= 2
    ensures Reaches(OrgStep(cap), Founded("a"), Org(PEERS, map[], TRANSFERS))
  {
    var s0 := Founded("a");
    ReachesSelf(OrgStep(cap), s0);
    var s1 := Org(map["a" := OWNER, "b" := MEMBER], map[], map[]);
    OrgReaches(cap, s0, s0, AddUser("b"), s1);
    var s2 := Org(PEERS, map[], map[]);
    OrgReaches(cap, s0, s1, AddUser("c"), s2);
    var s3 := Org(PEERS, map[], map[0 := Change("a", "b", OWNER, Guarded)]);
    ChangeIsGuarded(cap, s0, s2, 0, "a", "b", OWNER, s3);
    ChangeIsGuarded(cap, s0, s3, 1, "a", "c", OWNER, Org(PEERS, map[], TRANSFERS));
  }

  const AFTER_FIRST := Org(map["a" := ADMIN, "b" := OWNER, "c" := MEMBER], map[],
                           map[1 := Change("a", "c", OWNER, Guarded)])

  const AFTER_BOTH := Org(map["a" := ADMIN, "b" := OWNER, "c" := OWNER], map[], map[])

  lemma FirstWrites()
    ensures Moved(Org(PEERS, map[], TRANSFERS), Write(0)) == AFTER_FIRST
  {
    assert TRANSFERS - {0} == AFTER_FIRST.changes;
  }

  lemma SecondWrites()
    ensures CanMove(AFTER_FIRST, Write(1)) && Moved(AFTER_FIRST, Write(1)) == AFTER_BOTH
  {
    assert AFTER_FIRST.changes - {1} == map[];
  }

  /** Two transfers by one owner, both past their guards before either writes. */
  lemma TwoTransfersMeet(cap: nat)
    requires cap >= 2
    ensures exists s :: Reaches(OrgStep(cap), Founded("a"), s) && !HasOneOwner(s.members)
  {
    BothPass(cap);
    FirstWrites();
    OrgReaches(cap, Founded("a"), Org(PEERS, map[], TRANSFERS), Write(0), AFTER_FIRST);
    SecondWrites();
    OrgReaches(cap, Founded("a"), AFTER_FIRST, Write(1), AFTER_BOTH);
    TwoOwners();
  }

  lemma TwoOwners()
    ensures !HasOneOwner(AFTER_BOTH.members)
  {
    assert Owners(AFTER_BOTH.members) == {"b", "c"};
  }

  lemma AlwaysOneOwner(cap: nat, owner: string, s: Org)
    requires cap <= 1 && Reaches(OrgStep(cap), Founded(owner), s)
    ensures HasOneOwner(s.members) && forall i <- s.invites :: s.invites[i] == MEMBER
  {
    var run :| IsRun(OrgStep(cap), run) && run[0] == Founded(owner) && run[|run| - 1] == s;
    forall i | 0 <= i < |run| - 1 ensures OrgStep(1)(run[i], run[i + 1]) {
      assert OrgStep(cap)(run[i], run[i + 1]);
    }
    RunKeepsInv(owner, run, |run| - 1);
  }

  /**
   Every reachable organization has exactly one owner when its role changes do not overlap, whatever else comes in
   between; and that is exactly when.
   */
  lemma OneOwnerIffChangesDoNotOverlap(cap: nat)
    ensures (forall owner, s :: Reaches(OrgStep(cap), Founded(owner), s) ==> HasOneOwner(s.members)) <==> cap <= 1
  {
    if cap >= 2 {
      TwoTransfersMeet(cap);
    } else {
      forall owner, s | Reaches(OrgStep(cap), Founded(owner), s) ensures HasOneOwner(s.members) {
        AlwaysOneOwner(cap, owner, s);
      }
    }
  }

  /** The role change service, when nothing comes in between, is a run; a refused one changes nothing. */
  lemma RoleUpdateIsRun(m: Members, invites: map<nat, string>, actor: string, target: string, role: string)
    requires OrgRoleUpdate(m, actor, target, role).Ok?
    ensures Reaches(OrgStep(1), Org(m, invites, map[]),
                    Org(OrgRoleUpdate(m, actor, target, role).value, invites, map[]))
  {
    var s := Org(m, invites, map[]);
    var t := s.(changes := map[0 := Change(actor, target, role, Guarded)]);
    var u := Org(OrgRoleUpdate(m, actor, target, role).value, invites, map[]);
    ReachesSelf(OrgStep(1), s);
    assert t.changes == s.changes[0 := Change(actor, target, role, Guarded)];
    ChangeIsGuarded(1, s, s, 0, actor, target, role, t);
    assert t.changes - {0} == map[];
    OrgReaches(1, s, t, Write(0), u);
  }

  // ----- one team

  /** newRole is None for a removal. */
  datatype TeamChange = TeamChange(target: string, newRole: Option<string>, phase: TeamPhase)

  datatype TeamPhase = RoleRead(read: string) | Cleared

  datatype Team = Team(members: Members, changes: map<nat, TeamChange>)

  function Formed(owner: string): Team {
    Team(map[owner := OWNER], map[])
  }

  datatype TeamMove =
    | Join(user: string)
    | Read(change: nat, target: string, newRole: Option<string>)
    | Clear(change: nat)
    | Apply(change: nat)
    | Abandon(change: nat)

  /** A removal counts the owners only when the target is one; a role change always does. */
  predicate IsCleared(read: string, newRole: Option<string>, owners: nat) {
    if newRole.None? then read == OWNER ==> owners > 1
    else SoleTeamOwnerSafe(read, newRole.value, owners)
  }

  predicate CanTeamMove(s: Team, m: TeamMove) {
    match m
    case Read(c, target, newRole) =>
      c !in s.changes && target in s.members && (newRole.Some? ==> IsRole(newRole.value))
    case Clear(c) =>
      c in s.changes && s.changes[c].phase.RoleRead? &&
      IsCleared(s.changes[c].phase.read, s.changes[c].newRole, |Owners(s.members)|)
    case Apply(c) => c in s.changes && s.changes[c].phase == Cleared
    case _ => true
  }

  function Applied(m: Members, target: string, newRole: Option<string>): Members {
    if target !in m then m else if newRole.None? then m - {target} else m[target := newRole.value]
  }

  function TeamMoved(s: Team, m: TeamMove): Team
    requires CanTeamMove(s, m)
  {
    match m
    case Join(user) => s.(members := Added(s.members, user, MEMBER))
    case Read(c, target, newRole) =>
      s.(changes := s.changes[c := TeamChange(target, newRole, RoleRead(s.members[target]))])
    case Clear(c) => s.(changes := s.changes[c := s.changes[c].(phase := Cleared)])
    case Apply(c) =>
      s.(members := Applied(s.members, s.changes[c].target, s.changes[c].newRole), changes := s.changes - {c})
    case Abandon(c) => s.(changes := s.changes - {c})
  }

  ghost function TeamStep(cap: nat): (Team, Team) -> bool {
    (s: Team, t: Team) => |t.changes| <= cap && exists m :: CanTeamMove(s, m) && t == TeamMoved(s, m)
  }

  predicate TeamStillTrue(m: Members, c: TeamChange) {
    c.target in m &&
    match c.phase
    case RoleRead(r) => m[c.target] == r
    case Cleared => IsCleared(m[c.target], c.newRole, |Owners(m)|)
  }

  predicate TeamInv(s: Team) {
    HasOwner(s.members) && |s.changes| <= 1 && forall c <- s.changes :: TeamStillTrue(s.members, s.changes[c])
  }

  lemma ApplyKeepsInv(s: Team, c: nat)
    requires TeamInv(s) && CanTeamMove(s, Apply(c))
    ensures TeamInv(TeamMoved(s, Apply(c)))
  {
    OnlyChange(s.changes, c);
    assert TeamMoved(s, Apply(c)).changes.Keys == {};
    if s.changes[c].newRole.None? {
      TeamRemovalKeepsOwner(s.members, s.changes[c].target);
    } else {
      TeamRoleKeepsOwner(s.members, s.changes[c].target, s.changes[c].newRole.value);
    }
  }

  lemma TeamMoveKeepsInv(s: Team, m: TeamMove)
    requires TeamInv(s) && CanTeamMove(s, m) && |TeamMoved(s, m).changes| <= 1
    ensures TeamInv(TeamMoved(s, m))
  {
    match m {
      case Join(user) => AddedKeepsOwners(s.members, user, MEMBER);
      case Read(c, target, newRole) =>
        FirstChange(s.changes, c, TeamChange(target, newRole, RoleRead(s.members[target])));
      case Clear(c) => OnlyChange(s.changes, c);
      case Apply(c) => ApplyKeepsInv(s, c);
      case Abandon(_) =>
    }
  }

  lemma FormedInv(owner: string)
    ensures TeamInv(Formed(owner))
  {
    assert Owners(map[owner := OWNER]) == {owner};
  }

  lemma TeamStepKeepsInv(s: Team, t: Team)
    requires TeamInv(s) && TeamStep(1)(s, t)
    ensures TeamInv(t)
  {
    var m :| CanTeamMove(s, m) && t == TeamMoved(s, m);
    TeamMoveKeepsInv(s, m);
  }

  lemma {:induction false} TeamRunKeepsInv(owner: string, run: seq<Team>, i: nat)
    requires IsRun(TeamStep(1), run) && run[0] == Formed(owner) && i < |run|
    ensures TeamInv(run[i])
  {
    if i == 0 {
      FormedInv(owner);
    } else {
      TeamRunKeepsInv(owner, run, i - 1);
      TeamStepKeepsInv(run[i - 1], run[i]);
    }
  }

  lemma AlwaysOwned(cap: nat, owner: string, s: Team)
    requires cap <= 1 && Reaches(TeamStep(cap), Formed(owner), s)
    ensures HasOwner(s.members)
  {
    var run :| IsRun(TeamStep(cap), run) && run[0] == Formed(owner) && run[|run| - 1] == s;
    forall i | 0 <= i < |run| - 1 ensures TeamStep(1)(run[i], run[i + 1]) {
      assert TeamStep(cap)(run[i], run[i + 1]);
    }
    TeamRunKeepsInv(owner, run, |run| - 1);
  }

  lemma TeamReaches(cap: nat, from: Team, s: Team, m: TeamMove, t: Team)
    requires Reaches(TeamStep(cap), from, s) && CanTeamMove(s, m) && t == TeamMoved(s, m) && |t.changes| <= cap
    ensures Reaches(TeamStep(cap), from, t)
  {
    ReachesStep(TeamStep(cap), from, s, t);
  }

  /** So are the team services: a cleared removal or role change is applied. */
  lemma TeamChangeIsRun(m: Members, target: string, newRole: Option<string>)
    requires target in m && (newRole.Some? ==> IsRole(newRole.value)) && IsCleared(m[target], newRole, |Owners(m)|)
    ensures Reaches(TeamStep(1), Team(m, map[]), Team(Applied(m, target, newRole), map[]))
  {
    var s := Team(m, map[]);
    ReachesSelf(TeamStep(1), s);
    var t := Team(m, map[0 := TeamChange(target, newRole, RoleRead(m[target]))]);
    TeamReaches(1, s, s, Read(0, target, newRole), t);
    var u := Team(m, map[0 := TeamChange(target, newRole, Cleared)]);
    assert u.changes == t.changes[0 := t.changes[0].(phase := Cleared)];
    TeamReaches(1, s, t, Clear(0), u);
    assert u.changes - {0} == map[];
    TeamReaches(1, s, u, Apply(0), Team(Applied(m, target, newRole), map[]));
  }

  const PAIR := map["a" := OWNER, "b" := OWNER]

  lemma PairIsFormed(cap: nat)
    requires cap >= 1
    ensures Reaches(TeamStep(cap), Formed("a"), Team(PAIR, map[]))
  {
    var s0 := Formed("a");
    ReachesSelf(TeamStep(cap), s0);
    var joined := map["a" := OWNER, "b" := MEMBER];
    TeamReaches(cap, s0, s0, Join("b"), Team(joined, map[]));
    var s1 := Team(joined, map[0 := TeamChange("b", Some(OWNER), RoleRead(MEMBER))]);
    TeamReaches(cap, s0, Team(joined, map[]), Read(0, "b", Some(OWNER)), s1);
    var s2 := Team(joined, map[0 := TeamChange("b", Some(OWNER), Cleared)]);
    TeamReaches(cap, s0, s1, Clear(0), s2);
    assert s2.changes - {0} == map[];
    TeamReaches(cap, s0, s2, Apply(0), Team(PAIR, map[]));
  }

  function LeaveOf(user: string, phase: TeamPhase): TeamChange {
    TeamChange(user, None, phase)
  }

  const BOTH_CLEARED := Team(PAIR, map[0 := LeaveOf("a", Cleared), 1 := LeaveOf("b", Cleared)])

  /** Both owners' removals are cleared while the other is still there. */
  lemma BothRemovalsPass(cap: nat)
    requires cap >= 2
    ensures Reaches(TeamStep(cap), Formed("a"), BOTH_CLEARED)
  {
    PairIsFormed(cap);
    var s0 := Formed("a");
    assert Owners(PAIR) == {"a", "b"};
    var s1 := Team(PAIR, map[0 := LeaveOf("a", RoleRead(OWNER))]);
    TeamReaches(cap, s0, Team(PAIR, map[]), Read(0, "a", None), s1);
    var s2 := Team(PAIR, map[0 := LeaveOf("a", Cleared)]);
    TeamReaches(cap, s0, s1, Clear(0), s2);
    var s3 := Team(PAIR, map[0 := LeaveOf("a", Cleared), 1 := LeaveOf("b", RoleRead(OWNER))]);
    TeamReaches(cap, s0, s2, Read(1, "b", None), s3);
    TeamReaches(cap, s0, s3, Clear(1), BOTH_CLEARED);
  }

  lemma FirstLeaves()
    ensures CanTeamMove(BOTH_CLEARED, Apply(0))
    ensures TeamMoved(BOTH_CLEARED, Apply(0)) == Team(map["b" := OWNER], map[1 := LeaveOf("b", Cleared)])
  {
    assert PAIR - {"a"} == map["b" := OWNER];
    assert BOTH_CLEARED.changes - {0} == map[1 := LeaveOf("b", Cleared)];
  }

  lemma SecondLeaves(s: Team)
    requires s == Team(map["b" := OWNER], map[1 := LeaveOf("b", Cleared)])
    ensures CanTeamMove(s, Apply(1)) && TeamMoved(s, Apply(1)) == Team(map[], map[])
  {
    assert s.members - {"b"} == map[] && s.changes - {1} == map[];
  }

  lemma TwoRemovalsMeet(cap: nat)
    requires cap >= 2
    ensures exists s :: Reaches(TeamStep(cap), Formed("a"), s) && !HasOwner(s.members)
  {
    var s := Team(map["b" := OWNER], map[1 := LeaveOf("b", Cleared)]);
    BothRemovalsPass(cap);
    FirstLeaves();
    TeamReaches(cap, Formed("a"), BOTH_CLEARED, Apply(0), s);
    SecondLeaves(s);
    TeamReaches(cap, Formed("a"), s, Apply(1), Team(map[], map[]));
    assert Owners(map[]) == {};
    assert !HasOwner(Team(map[], map[]).members);
  }

  /** Every reachable team has an owner when its removals and role changes do not overlap, and that is exactly when. */
  lemma OwnedIffChangesDoNotOverlap(cap: nat)
    ensures (forall owner, s :: Reaches(TeamStep(cap), Formed(owner), s) ==> HasOwner(s.members)) <==> cap <= 1
  {
    if cap >= 2 {
      TwoRemovalsMeet(cap);
    } else {
      forall owner, s | Reaches(TeamStep(cap), Formed(owner), s) ensures HasOwner(s.members) {
        AlwaysOwned(cap, owner, s);
      }
    }
  }
}
