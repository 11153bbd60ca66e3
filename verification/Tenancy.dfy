/**
 Organization and team membership: the repositories, and the services that add, promote, demote and remove members.
 Looking up users by e-mail, tokens and their hashes are parameters; a repository call that fails ends the service
 with its error and changes nothing.
 */
module Tenancy {
  import opened Collections
  import opened Strings

  const OWNER := "owner"
  const ADMIN := "admin"
  const MEMBER := "member"
  const PENDING := "pending"
  const ACCEPTED := "accepted"

  datatype Error = InvalidRequest | Unauthorized | NotFound | Conflict

  /** The role of every member, by user. */
  type Members = map<string, string>

  // ----- rules

  predicate IsRole(role: string) {
    role == OWNER || role == ADMIN || role == MEMBER
  }

  function Owners(m: Members): set<string> {
    set u | u in m && m[u] == OWNER
  }

  predicate HasOneOwner(m: Members) {
    |Owners(m)| == 1
  }

  predicate HasOwner(m: Members) {
    |Owners(m)| >= 1
  }

  predicate SoleOwnerSafe(actor: string, target: string, targetRole: string, newRole: string, owners: nat) {
    !(target == actor && newRole != OWNER && owners <= 1) &&
    !(targetRole == OWNER && newRole != OWNER && owners <= 1 && target != actor)
  }

  predicate SoleTeamOwnerSafe(targetRole: string, newRole: string, owners: nat) {
    !(targetRole == OWNER && newRole != OWNER && owners <= 1)
  }

  predicate DemotesActor(actor: string, target: string, newRole: string) {
    newRole == OWNER && target != actor
  }

  /** Both updates of a role change, in one transaction; a missing row is not created. */
  function RoleChanged(m: Members, actor: string, target: string, newRole: string, demoteActor: bool): Members {
    var n := if demoteActor && actor in m then m[actor := ADMIN] else m;
    if target in n then n[target := newRole] else n
  }

  /** Inserting a member never touches a row that is there. */
  function Added(m: Members, user: string, role: string): Members {
    if user in m then m else m[user := role]
  }

  /** The first rule a role change breaks, or the members after it. */
  function OrgRoleUpdate(m: Members, actor: string, target: string, role: string): Result<Members, Error> {
    if !IsRole(role) then Err(InvalidRequest)
    else if actor !in m then Err(NotFound)
    else if m[actor] != OWNER then Err(Unauthorized)
    else if target !in m then Err(NotFound)
    else if !SoleOwnerSafe(actor, target, m[target], role, |Owners(m)|) then Err(InvalidRequest)
    else Ok(RoleChanged(m, actor, target, role, DemotesActor(actor, target, role)))
  }

  lemma OneOwner(m: Members, o: string)
    requires HasOneOwner(m) && o in Owners(m)
    ensures Owners(m) == {o}
  {
    var rest := Owners(m) - {o};
    assert |rest| == 0;
  }

  /** A role change keeps exactly one owner, and it is the actor's to give away: only a transfer changes who. */
  lemma OrgRoleUpdateKeepsOneOwner(m: Members, actor: string, target: string, role: string)
    requires HasOneOwner(m) && OrgRoleUpdate(m, actor, target, role).Ok?
    ensures HasOneOwner(OrgRoleUpdate(m, actor, target, role).value)
    ensures Owners(OrgRoleUpdate(m, actor, target, role).value) == if role == OWNER then {target} else {actor}
  {
    OneOwner(m, actor);
    var after := OrgRoleUpdate(m, actor, target, role).value;
    var owner := if role == OWNER then target else actor;
    assert forall u <- m :: m[u] == OWNER ==> u in Owners(m);
    forall u ensures u in Owners(after) <==> u == owner {
      assert u in after <==> u in m;
    }
    assert Owners(after) == {owner};
  }

  lemma AddedKeepsOwners(m: Members, user: string, role: string)
    requires role != OWNER
    ensures Owners(Added(m, user, role)) == Owners(m)
  {
  }

  /** A team may lose an owner only while another one remains. */
  lemma TeamRoleKeepsOwner(m: Members, target: string, role: string)
    requires HasOwner(m) && target in m && SoleTeamOwnerSafe(m[target], role, |Owners(m)|)
    ensures HasOwner(m[target := role])
  {
    AnotherOwner(m, target);
    if m[target] == OWNER && role != OWNER {
      assert Owners(m[target := role]) == Owners(m) - {target};
    } else if m[target] == OWNER || role != OWNER {
      assert Owners(m[target := role]) == Owners(m);
    } else {
      assert target in Owners(m[target := role]);
    }
  }

  lemma AnotherOwner(m: Members, target: string)
    ensures |Owners(m) - {target}| >= |Owners(m)| - 1
  {
    if target in Owners(m) {
      assert |Owners(m) - {target}| == |Owners(m)| - 1;
    } else {
      assert Owners(m) - {target} == Owners(m);
    }
  }

  lemma TeamRemovalKeepsOwner(m: Members, target: string)
    requires HasOwner(m) && target in m && (m[target] == OWNER ==> |Owners(m)| > 1)
    ensures HasOwner(m - {target})
  {
    AnotherOwner(m, target);
    assert Owners(m - {target}) == Owners(m) - {target};
  }

  // ----- organizations

  class OrganizationRepository {
    var members: map<string, Members>

    constructor ()
      ensures members == map[]
    {
      members := map[];
    }

    ghost predicate OneOwnerEach()
      reads this
    {
      forall o <- members :: HasOneOwner(members[o])
    }

    function Of(org: string): Members
      reads this
    {
      if org in members then members[org] else map[]
    }

    method CreateWithOwner(org: string, owner: string) returns (err: Option<Error>)
      modifies this
      ensures err.Some? <==> org in old(members)
      ensures members == if err.Some? then old(members) else old(members)[org := map[owner := OWNER]]
    {
      if org in members {
        return Some(Conflict);
      }
      members := members[org := map[owner := OWNER]];
      return None;
    }

    method AddMember(org: string, user: string, role: string) returns (err: Option<Error>)
      modifies this
      ensures err.Some? <==> org !in old(members)
      ensures members == if err.Some? then old(members) else old(members)[org := Added(old(Of(org)), user, role)]
    {
      if org !in members {
        return Some(Conflict);
      }
      if user !in members[org] {
        members := members[org := members[org][user := role]];
      }
      return None;
    }

    method GetMemberRole(user: string, org: string) returns (r: Result<string, Error>)
      ensures r == if user in Of(org) then Ok(Of(org)[user]) else Err(NotFound)
    {
      if org in members && user in members[org] {
        return Ok(members[org][user]);
      }
      return Err(NotFound);
    }

    method CountOwners(org: string) returns (n: nat)
      ensures n == |Owners(Of(org))|
    {
      n := |Owners(Of(org))|;
    }

    method ApplyRoleChange(org: string, actor: string, target: string, newRole: string, demoteActor: bool)
      modifies this
      ensures members == if org !in old(members) then old(members)
                         else old(members)[org := RoleChanged(old(Of(org)), actor, target, newRole, demoteActor)]
    {
      if org !in members {
        return;
      }
      var rows := members[org];
      if demoteActor && actor in rows {
        rows := rows[actor := ADMIN];
      }
      if target in rows {
        rows := rows[target := newRole];
      }
      members := members[org := rows];
    }
  }

  method CreateOrganization(repo: OrganizationRepository, id: string, name: string, creator: string)
    returns (err: Option<Error>)
    modifies repo
    ensures err.None? <==> creator != "" && id != "" && TrimSpace(name) != "" && id !in old(repo.members)
    ensures repo.members == if err.None? then old(repo.members)[id := map[creator := OWNER]] else old(repo.members)
    ensures old(repo.OneOwnerEach()) ==> repo.OneOwnerEach()
  {
    if creator == "" || id == "" || TrimSpace(name) == "" {
      return Some(InvalidRequest);
    }
    assert Owners(map[creator := OWNER]) == {creator};
    err := repo.CreateWithOwner(id, creator);
  }

  /** found is the outcome of looking the e-mail up; somebody who is a member already stays as they are. */
  method AddOrgMemberByEmail(repo: OrganizationRepository, org: string, found: Option<string>)
    returns (err: Option<Error>)
    modifies repo
    ensures err.None? <==> found.Some? && org in old(repo.members)
    ensures repo.members == if err.Some? then old(repo.members)
                            else old(repo.members)[org := Added(old(repo.Of(org)), found.value, MEMBER)]
    ensures old(repo.OneOwnerEach()) ==> repo.OneOwnerEach()
  {
    if found.None? {
      return Some(NotFound);
    }
    AddedKeepsOwners(repo.Of(org), found.value, MEMBER);
    err := repo.AddMember(org, found.value, MEMBER);
  }

  ghost predicate IsRoleChange(before: Members, after: Members, actor: string, target: string, role: string) {
    && after.Keys == before.Keys && target in after && after[target] == role
    && (role == "owner" && actor != target && actor in after ==> after[actor] == "admin")
    && (forall u <- after :: u != target && (u != actor || role != "owner") ==> after[u] == before[u])
  }

  /** Answers the target's role after the change. */
  method UpdateOrgMemberRole(repo: OrganizationRepository, org: string, actor: string, target: string, role: string)
    returns (r: Result<string, Error>)
    modifies repo
    ensures match OrgRoleUpdate(old(repo.Of(org)), actor, target, role)
            case Ok(m) => r == Ok(role) && target in m && m[target] == role
                && repo.members == old(repo.members)[org := m]
            case Err(e) => r == Err(e) && repo.members == old(repo.members)
    // exactly when it succeeds: an owner asks, for a member, and some owner remains
    ensures var m := old(repo.Of(org));
            r.Ok? <==>
              && (role == "owner" || role == "admin" || role == "member")
              && actor in m && m[actor] == "owner" && target in m
              && (m[target] == "owner" && role != "owner" ==> |Owners(m)| > 1)
    // what it writes: the target's role, and a transfer makes the actor an admin
    ensures r.Ok? ==> IsRoleChange(old(repo.Of(org)), repo.Of(org), actor, target, role)
    ensures old(repo.OneOwnerEach()) ==> repo.OneOwnerEach()
  {
    if !IsRole(role) {
      return Err(InvalidRequest);
    }
    var actorRole := repo.GetMemberRole(actor, org);
    if actorRole.Err? {
      return Err(actorRole.error);
    }
    if actorRole.value != OWNER {
      return Err(Unauthorized);
    }
    var targetRole := repo.GetMemberRole(target, org);
    if targetRole.Err? {
      return Err(targetRole.error);
    }
    var owners := repo.CountOwners(org);
    if !SoleOwnerSafe(actor, target, targetRole.value, role, owners) {
      return Err(InvalidRequest);
    }
    ghost var m := repo.Of(org);
    if HasOneOwner(m) {
      OrgRoleUpdateKeepsOneOwner(m, actor, target, role);
    }
    repo.ApplyRoleChange(org, actor, target, role, DemotesActor(actor, target, role));
    r := repo.GetMemberRole(target, org);
  }

  // ----- invites

  datatype Invite = Invite(org: string, email: string, role: string, status: string, expires: int)

  class InviteRepository {
    var invites: map<string, Invite>

    constructor ()
      ensures invites == map[]
    {
      invites := map[];
    }

    /** Nobody is ever invited as more than a member. */
    ghost predicate OnlyForMembers()
      reads this
    {
      forall i <- invites :: invites[i].role == MEMBER
    }
  }

  /**
   Inviting somebody who has an account adds them at once; otherwise an invite is left pending. found is
   the outcome of looking the e-mail up, and pendingId that of looking for a pending invite.
   */
  method InviteOrgMember(repo: OrganizationRepository, invites: InviteRepository, inviteId: string, org: string,
                         email: string, invitedBy: string, found: Option<string>, pendingId: Option<string>,
                         expires: int)
    returns (err: Option<Error>)
    requires pendingId.Some? ==> pendingId.value in invites.invites
    modifies repo, invites
    ensures old(repo.OneOwnerEach()) ==> repo.OneOwnerEach()
    ensures old(invites.OnlyForMembers()) ==> invites.OnlyForMembers()
    ensures err.Some? ==> repo.members == old(repo.members) && invites.invites == old(invites.invites)
    ensures err.None? <==>
              && org != "" && invitedBy != "" && '@' in ToLower(TrimSpace(email))
              && (found.Some? ==> org in old(repo.members) && found.value !in old(repo.Of(org)))
              && (found.None? && pendingId.None? ==> inviteId != "" && inviteId !in old(invites.invites))
    ensures err.None? && found.Some? ==>
              invites.invites == old(invites.invites) && found.value !in old(repo.Of(org)) &&
              repo.members == old(repo.members)[org := old(repo.Of(org))[found.value := MEMBER]]
    ensures err.None? && found.None? ==>
              repo.members == old(repo.members) &&
              invites.invites == if pendingId.Some? then
                var existing := old(invites.invites)[pendingId.value];
                old(invites.invites)[pendingId.value := existing.(expires := expires, status := PENDING)]
              else old(invites.invites)[inviteId := Invite(org, ToLower(TrimSpace(email)), MEMBER, PENDING, expires)]
  {
    var address := ToLower(TrimSpace(email));
    if org == "" || address == "" || invitedBy == "" || '@' !in address {
      return Some(InvalidRequest);
    }
    if found.Some? {
      var role := repo.GetMemberRole(found.value, org);
      if role.Ok? {
        return Some(InvalidRequest);
      }
      AddedKeepsOwners(repo.Of(org), found.value, MEMBER);
      err := repo.AddMember(org, found.value, MEMBER);
      return;
    }
    if pendingId.Some? {
      var existing := invites.invites[pendingId.value];
      invites.invites := invites.invites[pendingId.value := existing.(expires := expires, status := PENDING)];
      return None;
    }
    if inviteId == "" || inviteId in invites.invites {
      return Some(InvalidRequest);
    }
    invites.invites := invites.invites[inviteId := Invite(org, address, MEMBER, PENDING, expires)];
    return None;
  }

  function RoleOf(inv: Invite): string {
    if inv.role == "" then MEMBER else inv.role
  }

  /**
   inviteId is the outcome of looking the token up, user that of finding or creating the account. Closing the invite is
   a write of its own: when it fails, somebody who is a member is not told, and a new member is in although the service
   reports an error.
   */
  method AcceptInvite(repo: OrganizationRepository, invites: InviteRepository, inviteId: Option<string>, user: string,
                      now: int, closeFails: bool)
    returns (err: Option<Error>)
    requires inviteId.Some? ==> inviteId.value in invites.invites
    modifies repo, invites
    ensures old(repo.OneOwnerEach()) && old(invites.OnlyForMembers()) ==> repo.OneOwnerEach()
    ensures old(invites.OnlyForMembers()) ==> invites.OnlyForMembers()
    ensures !CanBeAccepted(old(invites.invites), inviteId, now) ==>
              err.Some? && repo.members == old(repo.members) && invites.invites == old(invites.invites)
    ensures CanBeAccepted(old(invites.invites), inviteId, now) ==>
              var inv := old(invites.invites)[inviteId.value];
              var closed := old(invites.invites)[inviteId.value := inv.(status := ACCEPTED)];
              if user in old(repo.Of(inv.org)) then
                err.None? && repo.members == old(repo.members) &&
                invites.invites == (if closeFails then old(invites.invites) else closed)
              else if inv.org !in old(repo.members) then
                err.Some? && repo.members == old(repo.members) && invites.invites == old(invites.invites)
              else
                (err.Some? <==> closeFails) &&
                repo.members == old(repo.members)[inv.org := old(repo.Of(inv.org))[user := RoleOf(inv)]] &&
                invites.invites == (if closeFails then old(invites.invites) else closed)
  {
    if inviteId.None? {
      return Some(NotFound);
    }
    var inv := invites.invites[inviteId.value];
    if inv.status != PENDING {
      return Some(NotFound);
    }
    if now > inv.expires {
      return Some(InvalidRequest);
    }
    var current := repo.GetMemberRole(user, inv.org);
    if current.Err? {
      if RoleOf(inv) != OWNER {
        AddedKeepsOwners(repo.Of(inv.org), user, RoleOf(inv));
      }
      err := repo.AddMember(inv.org, user, RoleOf(inv));
      if err.Some? {
        return;
      }
      if closeFails {
        return Some(Conflict);
      }
    }
    if !closeFails {
      invites.invites := invites.invites[inviteId.value := inv.(status := ACCEPTED)];
    }
    return None;
  }

  predicate CanBeAccepted(invites: map<string, Invite>, inviteId: Option<string>, now: int) {
    inviteId.Some? && inviteId.value in invites &&
    invites[inviteId.value].status == PENDING && now <= invites[inviteId.value].expires
  }

  // ----- teams

  class TeamRepository {
    var members: map<string, Members>
    var orgOf: map<string, string>

    constructor ()
      ensures members == map[] && orgOf == map[]
    {
      members, orgOf := map[], map[];
    }

    ghost predicate OwnedEach()
      reads this
    {
      forall t <- members :: HasOwner(members[t])
    }

    function Of(team: string): Members
      reads this
    {
      if team in members then members[team] else map[]
    }

    method CreateWithOwner(team: string, org: string, owner: string) returns (err: Option<Error>)
      modifies this
      ensures err.Some? <==> team in old(members)
      ensures members == if err.Some? then old(members) else old(members)[team := map[owner := OWNER]]
      ensures orgOf == if err.Some? then old(orgOf) else old(orgOf)[team := org]
    {
      if team in members {
        return Some(Conflict);
      }
      members := members[team := map[owner := OWNER]];
      orgOf := orgOf[team := org];
      return None;
    }

    method GetMemberRole(team: string, user: string) returns (r: Result<string, Error>)
      ensures r == if user in Of(team) then Ok(Of(team)[user]) else Err(NotFound)
    {
      if team in members && user in members[team] {
        return Ok(members[team][user]);
      }
      return Err(NotFound);
    }

    method CountOwners(team: string) returns (n: nat)
      ensures n == |Owners(Of(team))|
    {
      n := |Owners(Of(team))|;
    }

    /** Unlike an organization's, a team's insert fails on a row that is there. */
    method AddMember(team: string, user: string, role: string) returns (err: Option<Error>)
      modifies `members
      ensures err.Some? <==> team !in old(members) || user in old(Of(team))
      ensures members == if err.Some? then old(members) else old(members)[team := old(Of(team))[user := role]]
    {
      if team !in members || user in members[team] {
        return Some(Conflict);
      }
      members := members[team := members[team][user := role]];
      return None;
    }

    method SetMemberRole(team: string, user: string, role: string) returns (err: Option<Error>)
      modifies `members
      ensures err.Some? <==> user !in old(Of(team))
      ensures members == if err.Some? then old(members) else old(members)[team := old(Of(team))[user := role]]
    {
      if team !in members || user !in members[team] {
        return Some(NotFound);
      }
      members := members[team := members[team][user := role]];
      return None;
    }

    method RemoveMember(team: string, user: string) returns (err: Option<Error>)
      modifies `members
      ensures err.Some? <==> user !in old(Of(team))
      ensures members == if err.Some? then old(members) else old(members)[team := old(Of(team)) - {user}]
    {
      if team !in members || user !in members[team] {
        return Some(NotFound);
      }
      members := members[team := members[team] - {user}];
      return None;
    }
  }

  method CreateTeam(teams: TeamRepository, id: string, org: string, name: string, creator: string)
    returns (err: Option<Error>)
    modifies teams
    ensures err.None? <==> creator != "" && id != "" && org != "" && TrimSpace(name) != "" && id !in old(teams.members)
    ensures teams.members == if err.None? then old(teams.members)[id := map[creator := OWNER]] else old(teams.members)
    ensures teams.orgOf == if err.None? then old(teams.orgOf)[id := org] else old(teams.orgOf)
    ensures old(teams.OwnedEach()) ==> teams.OwnedEach()
  {
    if creator == "" || id == "" || org == "" || TrimSpace(name) == "" {
      return Some(InvalidRequest);
    }
    assert Owners(map[creator := OWNER]) == {creator};
    err := teams.CreateWithOwner(id, org, creator);
  }

  method AddTeamMember(teams: TeamRepository, orgs: OrganizationRepository, team: string, user: string)
    returns (err: Option<Error>)
    modifies teams
    ensures err.None? <==> user != "" && team in teams.orgOf && user in orgs.Of(teams.orgOf[team]) &&
                           team in old(teams.members) && user !in old(teams.Of(team))
    ensures err.None? ==> teams.members == old(teams.members)[team := old(teams.Of(team))[user := "member"]]
    ensures err.Some? ==> teams.members == old(teams.members)
    ensures teams.orgOf == old(teams.orgOf)
    ensures old(teams.OwnedEach()) ==> teams.OwnedEach()
  {
    if user == "" {
      return Some(InvalidRequest);
    }
    if team !in teams.orgOf {
      return Some(NotFound);
    }
    var inOrg := orgs.GetMemberRole(user, teams.orgOf[team]);
    if inOrg.Err? {
      return Some(InvalidRequest);
    }
    var inTeam := teams.GetMemberRole(team, user);
    if inTeam.Ok? {
      return Some(InvalidRequest);
    }
    AddedKeepsOwners(teams.Of(team), user, MEMBER);
    err := teams.AddMember(team, user, MEMBER);
  }

  method RemoveTeamMember(teams: TeamRepository, team: string, target: string) returns (err: Option<Error>)
    modifies teams`members
    ensures err.None? <==> target != "" && target in old(teams.Of(team)) &&
                           (old(teams.Of(team))[target] == OWNER ==> |Owners(old(teams.Of(team)))| > 1)
    ensures teams.members == if err.None? then old(teams.members)[team := old(teams.Of(team)) - {target}]
                             else old(teams.members)
    ensures old(teams.OwnedEach()) ==> teams.OwnedEach()
  {
    if target == "" {
      return Some(InvalidRequest);
    }
    var role := teams.GetMemberRole(team, target);
    if role.Err? {
      return Some(role.error);
    }
    if role.value == OWNER {
      var owners := teams.CountOwners(team);
      if owners <= 1 {
        return Some(InvalidRequest);
      }
    }
    if HasOwner(teams.Of(team)) {
      TeamRemovalKeepsOwner(teams.Of(team), target);
    }
    err := teams.RemoveMember(team, target);
  }

  /** Organization admins and team owners. */
  predicate MayChangeTeamRoles(orgMembers: Members, teamMembers: Members, user: string) {
    (user in orgMembers && (orgMembers[user] == OWNER || orgMembers[user] == ADMIN)) ||
    (user in teamMembers && teamMembers[user] == OWNER)
  }

  method UpdateTeamMemberRole(teams: TeamRepository, orgs: OrganizationRepository, team: string, actor: string,
                              target: string, role: string)
    returns (r: Result<string, Error>)
    modifies teams`members
    ensures r.Ok? <==> IsRole(role) && actor != "" && target != "" && team in teams.orgOf &&
                       MayChangeTeamRoles(orgs.Of(teams.orgOf[team]), old(teams.Of(team)), actor) &&
                       target in old(teams.Of(team)) &&
                       SoleTeamOwnerSafe(old(teams.Of(team))[target], role, |Owners(old(teams.Of(team)))|)
    ensures r.Ok? ==> r.value == role
    ensures r.Ok? ==> teams.members == old(teams.members)[team := old(teams.Of(team))[target := role]]
    ensures r.Err? ==> teams.members == old(teams.members)
    ensures old(teams.OwnedEach()) ==> teams.OwnedEach()
  {
    if !IsRole(role) || actor == "" || target == "" {
      return Err(InvalidRequest);
    }
    if team !in teams.orgOf {
      return Err(NotFound);
    }
    var orgRole := orgs.GetMemberRole(actor, teams.orgOf[team]);
    if orgRole.Err? || (orgRole.value != OWNER && orgRole.value != ADMIN) {
      var teamRole := teams.GetMemberRole(team, actor);
      if teamRole.Err? || teamRole.value != OWNER {
        return Err(Unauthorized);
      }
    }
    var current := teams.GetMemberRole(team, target);
    if current.Err? {
      return Err(current.error);
    }
    if current.value == role {
      assert teams.Of(team)[target := role] == teams.Of(team);
      return Ok(role);
    }
    var owners := teams.CountOwners(team);
    if !SoleTeamOwnerSafe(current.value, role, owners) {
      return Err(InvalidRequest);
    }
    if HasOwner(teams.Of(team)) {
      TeamRoleKeepsOwner(teams.Of(team), target, role);
    }
    var failed := teams.SetMemberRole(team, target, role);
    r := teams.GetMemberRole(team, target);
  }
}
