/**
 * The organisation service (internal/org/service.go): a thin layer over an
 * organisation API and a team API that checks roles and team permissions
 * before delegating, and finds a team's child teams.
 *
 * The two APIs are remote; each is an object that records the calls it
 * receives, in order, and answers each one by a function of the calls that
 * came before it and the call itself. The records follow types/models.go.
 */
module OrgService {
  import opened Base
  import OrgErrors

  datatype RepoSettings = RepoSettings(defaultRepoPermission: string, membersCanCreateRepos: bool,
                                       membersCanCreatePages: bool, membersCanForkPrivate: bool,
                                       twoFactorRequired: bool)
  datatype Organization = Organization(id: int, login: string, name: string, description: string,
                                       htmlUrl: string, settings: RepoSettings)
  datatype Member = Member(id: int, login: string, htmlUrl: string, role: string)
  /** A `Team`; a nil `Parent` is `None`. */
  datatype Team = Team(id: int, name: string, slug: string, description: string, permission: string,
                       parent: Option<Team>, htmlUrl: string, membersCount: int, reposCount: int)
  datatype TeamParams = TeamParams(name: string, description: string, permission: string, parentId: int)
  datatype Repository = Repository(id: int, name: string, fullName: string, description: string, private: bool)

  const RoleMember := "member"
  const RoleAdmin := "admin"

  /** `validateRole`. */
  predicate ValidateRole(role: string)
    ensures ValidateRole(role) <==> OrgErrors.ValidRole(role)
  {
    role == RoleMember || role == RoleAdmin
  }

  const TeamPermissions := map["pull" := true, "push" := true, "admin" := true, "maintain" := true, "triage" := true]

  /** `validateTeamPermission`: a lookup in the literal map, absent keys reading false. */
  predicate ValidateTeamPermission(permission: string)
    ensures ValidateTeamPermission(permission) <==> OrgErrors.ValidTeamPermission(permission)
  {
    permission in TeamPermissions && TeamPermissions[permission]
  }

  /** The service's checks accept exactly what the checks of org/errors.go accept. */
  lemma ChecksAgree(role: string, permission: string)
    ensures ValidateRole(role) <==> OrgErrors.ValidRole(role)
    ensures ValidateRole(role) <==> role in {"member", "admin"}
    ensures ValidateTeamPermission(permission) <==> OrgErrors.ValidTeamPermission(permission)
    ensures ValidateTeamPermission(permission) <==> permission in {"pull", "push", "admin", "maintain", "triage"}
  {
    OrgErrors.TeamPermissionsExactly(permission);
  }

  function InvalidRoleText(role: string): string
  {
    "invalid role: " + role + " (must be '" + RoleMember + "' or '" + RoleAdmin + "')"
  }

  function InvalidPermissionText(permission: string): string
  {
    "invalid team permission: " + permission
  }

  /** The permission check shared by `CreateTeam` and `UpdateTeam`: an empty permission is left to the API. */
  function PermissionError(params: TeamParams): (err: Option<string>)
    ensures err.None? <==> params.permission == "" || ValidateTeamPermission(params.permission)
    ensures err.Some? ==> err.value == InvalidPermissionText(params.permission)
  {
    if params.permission != "" && !ValidateTeamPermission(params.permission) then
      Some(InvalidPermissionText(params.permission))
    else None
  }

  /** The permission "invalid" is refused with the text "invalid team permission: invalid". */
  lemma PermissionErrorText(params: TeamParams)
    requires params.permission == "invalid"
    ensures PermissionError(params) == Some("invalid team permission: invalid")
  {
    ChecksAgree("", "invalid");
    assert InvalidPermissionText("invalid") == "invalid team permission: invalid";
  }

  /** `t` is a child of the team with id `parentId`. */
  predicate ChildOf(t: Team, parentId: int)
  {
    t.parent.Some? && t.parent.value.id == parentId
  }

  /** The children of `parentId` among `teams`, in the order of `teams`. */
  function Children(teams: seq<Team>, parentId: int): seq<Team>
    decreases |teams|
  {
    if teams == [] then []
    else
      Children(teams[..|teams| - 1], parentId)
      + (if ChildOf(teams[|teams| - 1], parentId) then [teams[|teams| - 1]] else [])
  }

  /** A team is among the children exactly when it is listed and is a child of the parent. */
  lemma {:induction false} ChildrenExactly(teams: seq<Team>, parentId: int, t: Team)
    ensures t in Children(teams, parentId) <==> t in teams && ChildOf(t, parentId)
    decreases |teams|
  {
    if teams != [] {
      var init := teams[..|teams| - 1];
      ChildrenExactly(init, parentId, t);
      assert teams == init + [teams[|teams| - 1]];
    }
  }

  /** The children keep the listing order: of two lists in a row, the children of the first come first. */
  lemma {:induction false} ChildrenInOrder(a: seq<Team>, b: seq<Team>, parentId: int)
    ensures Children(a + b, parentId) == Children(a, parentId) + Children(b, parentId)
    decreases |b|
  {
    if b == [] {
      assert a + b == a;
    } else {
      var init := b[..|b| - 1];
      assert (a + b)[..|a + b| - 1] == a + init;
      ChildrenInOrder(a, init, parentId);
    }
  }

  /** A call to the organisation API. */
  datatype OrgCall =
    | OrgList
    | OrgGet(name: string)
    | SettingsUpdate(name: string, settings: RepoSettings)
    | MemberList(name: string)
    | MemberAdd(org: string, user: string, role: string)
    | MemberRemove(org: string, user: string)

  /** A call to the team API. */
  datatype TeamCall =
    | TeamList(org: string)
    | TeamGet(org: string, team: string)
    | TeamCreate(org: string, params: TeamParams)
    | TeamUpdate(org: string, team: string, params: TeamParams)
    | TeamDelete(org: string, team: string)
    | TeamMemberAdd(org: string, team: string, user: string)
    | TeamMemberRemove(org: string, team: string, user: string)
    | TeamRepoList(org: string, team: string)
    | TeamRepoAdd(org: string, team: string, repo: string)
    | TeamRepoRemove(org: string, team: string, repo: string)

  /** `types.OrganizationAPI`: the calls received and how it answers them. */
  class OrganizationApi {
    var calls: seq<OrgCall>
    const organizations: (seq<OrgCall>, OrgCall) -> Result<seq<Organization>>
    const organization: (seq<OrgCall>, OrgCall) -> Result<Organization>
    const members: (seq<OrgCall>, OrgCall) -> Result<seq<Member>>
    /** The error, if any, of a call that returns nothing else. */
    const outcome: (seq<OrgCall>, OrgCall) -> Option<string>

    constructor (organizations: (seq<OrgCall>, OrgCall) -> Result<seq<Organization>>,
                 organization: (seq<OrgCall>, OrgCall) -> Result<Organization>,
                 members: (seq<OrgCall>, OrgCall) -> Result<seq<Member>>,
                 outcome: (seq<OrgCall>, OrgCall) -> Option<string>)
      ensures calls == [] && this.organizations == organizations && this.organization == organization
      ensures this.members == members && this.outcome == outcome
    {
      calls := [];
      this.organizations := organizations;
      this.organization := organization;
      this.members := members;
      this.outcome := outcome;
    }

    method ListOrganizations() returns (r: Result<seq<Organization>>)
      modifies this
      ensures calls == old(calls) + [OrgList] && r == organizations(old(calls), OrgList)
    {
      r := organizations(calls, OrgList);
      calls := calls + [OrgList];
    }

    method GetOrganization(name: string) returns (r: Result<Organization>)
      modifies this
      ensures calls == old(calls) + [OrgGet(name)] && r == organization(old(calls), OrgGet(name))
    {
      r := organization(calls, OrgGet(name));
      calls := calls + [OrgGet(name)];
    }

    method ListMembers(name: string) returns (r: Result<seq<Member>>)
      modifies this
      ensures calls == old(calls) + [MemberList(name)] && r == members(old(calls), MemberList(name))
    {
      r := members(calls, MemberList(name));
      calls := calls + [MemberList(name)];
    }

    /** A call that returns only an error. */
    method Send(c: OrgCall) returns (err: Option<string>)
      modifies this
      ensures calls == old(calls) + [c] && err == outcome(old(calls), c)
    {
      err := outcome(calls, c);
      calls := calls + [c];
    }
  }

  /** `types.TeamAPI`: the calls received and how it answers them. */
  class TeamApi {
    var calls: seq<TeamCall>
    const teams: (seq<TeamCall>, TeamCall) -> Result<seq<Team>>
    const team: (seq<TeamCall>, TeamCall) -> Result<Team>
    const repos: (seq<TeamCall>, TeamCall) -> Result<seq<Repository>>
    /** The error, if any, of a call that returns nothing else. */
    const outcome: (seq<TeamCall>, TeamCall) -> Option<string>

    constructor (teams: (seq<TeamCall>, TeamCall) -> Result<seq<Team>>,
                 team: (seq<TeamCall>, TeamCall) -> Result<Team>,
                 repos: (seq<TeamCall>, TeamCall) -> Result<seq<Repository>>,
                 outcome: (seq<TeamCall>, TeamCall) -> Option<string>)
      ensures calls == [] && this.teams == teams && this.team == team
      ensures this.repos == repos && this.outcome == outcome
    {
      calls := [];
      this.teams := teams;
      this.team := team;
      this.repos := repos;
      this.outcome := outcome;
    }

    method ListTeams(org: string) returns (r: Result<seq<Team>>)
      modifies this
      ensures calls == old(calls) + [TeamList(org)] && r == teams(old(calls), TeamList(org))
    {
      r := teams(calls, TeamList(org));
      calls := calls + [TeamList(org)];
    }

    /** `GetTeam`, and `CreateTeam`, which also answers one team. */
    method OneTeam(c: TeamCall) returns (r: Result<Team>)
      modifies this
      ensures calls == old(calls) + [c] && r == team(old(calls), c)
    {
      r := team(calls, c);
      calls := calls + [c];
    }

    method ListTeamRepos(org: string, name: string) returns (r: Result<seq<Repository>>)
      modifies this
      ensures calls == old(calls) + [TeamRepoList(org, name)] && r == repos(old(calls), TeamRepoList(org, name))
    {
      r := repos(calls, TeamRepoList(org, name));
      calls := calls + [TeamRepoList(org, name)];
    }

    /** A call that returns only an error. */
    method Send(c: TeamCall) returns (err: Option<string>)
      modifies this
      ensures calls == old(calls) + [c] && err == outcome(old(calls), c)
    {
      err := outcome(calls, c);
      calls := calls + [c];
    }
  }

  /** `client`: the service over the two APIs. */
  class Client {
    const orgs: OrganizationApi
    const teams: TeamApi

    /** `New`. */
    constructor (orgs: OrganizationApi, teams: TeamApi)
      ensures this.orgs == orgs && this.teams == teams
    {
      this.orgs := orgs;
      this.teams := teams;
    }

    method ListOrganizations() returns (r: Result<seq<Organization>>)
      modifies orgs
      ensures orgs.calls == old(orgs.calls) + [OrgList] && r == orgs.organizations(old(orgs.calls), OrgList)
    {
      r := orgs.ListOrganizations();
    }

    method GetOrganization(name: string) returns (r: Result<Organization>)
      modifies orgs
      ensures orgs.calls == old(orgs.calls) + [OrgGet(name)] && r == orgs.organization(old(orgs.calls), OrgGet(name))
    {
      r := orgs.GetOrganization(name);
    }

    method UpdateSettings(name: string, settings: RepoSettings) returns (err: Option<string>)
      modifies orgs
      ensures orgs.calls == old(orgs.calls) + [SettingsUpdate(name, settings)]
      ensures err == orgs.outcome(old(orgs.calls), SettingsUpdate(name, settings))
    {
      err := orgs.Send(SettingsUpdate(name, settings));
    }

    method ListMembers(name: string) returns (r: Result<seq<Member>>)
      modifies orgs
      ensures orgs.calls == old(orgs.calls) + [MemberList(name)] && r == orgs.members(old(orgs.calls), MemberList(name))
    {
      r := orgs.ListMembers(name);
    }

    /** `AddMember`: a role other than member or admin is refused before the API is called. */
    method AddMember(org: string, user: string, role: string) returns (err: Option<string>)
      modifies orgs
      ensures !ValidateRole(role) ==> err == Some(InvalidRoleText(role)) && orgs.calls == old(orgs.calls)
      ensures ValidateRole(role) ==> orgs.calls == old(orgs.calls) + [MemberAdd(org, user, role)]
                                     && err == orgs.outcome(old(orgs.calls), MemberAdd(org, user, role))
    {
      if !ValidateRole(role) {
        return Some(InvalidRoleText(role));
      }
      err := orgs.Send(MemberAdd(org, user, role));
    }

    method RemoveMember(org: string, user: string) returns (err: Option<string>)
      modifies orgs
      ensures orgs.calls == old(orgs.calls) + [MemberRemove(org, user)]
      ensures err == orgs.outcome(old(orgs.calls), MemberRemove(org, user))
    {
      err := orgs.Send(MemberRemove(org, user));
    }

    method ListTeams(org: string) returns (r: Result<seq<Team>>)
      modifies teams
      ensures teams.calls == old(teams.calls) + [TeamList(org)] && r == teams.teams(old(teams.calls), TeamList(org))
    {
      r := teams.ListTeams(org);
    }

    method GetTeam(org: string, team: string) returns (r: Result<Team>)
      modifies teams
      ensures teams.calls == old(teams.calls) + [TeamGet(org, team)] && r == teams.team(old(teams.calls), TeamGet(org, team))
    {
      r := teams.OneTeam(TeamGet(org, team));
    }

    /**
     * `CreateTeam`: nil parameters and a non-empty invalid permission are
     * refused before the API is called; an empty permission is passed on.
     */
    method CreateTeam(org: string, params: Option<TeamParams>) returns (r: Result<Team>)
      modifies teams
      ensures params.None? ==> r == Err("team parameters cannot be nil") && teams.calls == old(teams.calls)
      ensures params.Some? && PermissionError(params.value).Some? ==>
                r == Err(PermissionError(params.value).value) && teams.calls == old(teams.calls)
      ensures params.Some? && PermissionError(params.value).None? ==>
                teams.calls == old(teams.calls) + [TeamCreate(org, params.value)]
                && r == teams.team(old(teams.calls), TeamCreate(org, params.value))
    {
      if params.None? {
        return Err("team parameters cannot be nil");
      }
      var refused := PermissionError(params.value);
      if refused.Some? {
        return Err(refused.value);
      }
      r := teams.OneTeam(TeamCreate(org, params.value));
    }

    /**
     * `UpdateTeam`: the same permission check, but no nil check: nil
     * parameters are dereferenced, which panics, so callers must pass some.
     */
    method UpdateTeam(org: string, team: string, params: Option<TeamParams>) returns (err: Option<string>)
      requires params.Some?
      modifies teams
      ensures PermissionError(params.value).Some? ==> err == PermissionError(params.value) && teams.calls == old(teams.calls)
      ensures PermissionError(params.value).None? ==>
                teams.calls == old(teams.calls) + [TeamUpdate(org, team, params.value)]
                && err == teams.outcome(old(teams.calls), TeamUpdate(org, team, params.value))
    {
      var refused := PermissionError(params.value);
      if refused.Some? {
        return refused;
      }
      err := teams.Send(TeamUpdate(org, team, params.value));
    }

    method DeleteTeam(org: string, team: string) returns (err: Option<string>)
      modifies teams
      ensures teams.calls == old(teams.calls) + [TeamDelete(org, team)]
      ensures err == teams.outcome(old(teams.calls), TeamDelete(org, team))
    {
      err := teams.Send(TeamDelete(org, team));
    }

    method AddTeamMember(org: string, team: string, username: string) returns (err: Option<string>)
      modifies teams
      ensures teams.calls == old(teams.calls) + [TeamMemberAdd(org, team, username)]
      ensures err == teams.outcome(old(teams.calls), TeamMemberAdd(org, team, username))
    {
      err := teams.Send(TeamMemberAdd(org, team, username));
    }

    method RemoveTeamMember(org: string, team: string, username: string) returns (err: Option<string>)
      modifies teams
      ensures teams.calls == old(teams.calls) + [TeamMemberRemove(org, team, username)]
      ensures err == teams.outcome(old(teams.calls), TeamMemberRemove(org, team, username))
    {
      err := teams.Send(TeamMemberRemove(org, team, username));
    }

    method ListTeamRepos(org: string, team: string) returns (r: Result<seq<Repository>>)
      modifies teams
      ensures teams.calls == old(teams.calls) + [TeamRepoList(org, team)]
      ensures r == teams.repos(old(teams.calls), TeamRepoList(org, team))
    {
      r := teams.ListTeamRepos(org, team);
    }

    method AddTeamRepo(org: string, team: string, repo: string) returns (err: Option<string>)
      modifies teams
      ensures teams.calls == old(teams.calls) + [TeamRepoAdd(org, team, repo)]
      ensures err == teams.outcome(old(teams.calls), TeamRepoAdd(org, team, repo))
    {
      err := teams.Send(TeamRepoAdd(org, team, repo));
    }

    method RemoveTeamRepo(org: string, team: string, repo: string) returns (err: Option<string>)
      modifies teams
      ensures teams.calls == old(teams.calls) + [TeamRepoRemove(org, team, repo)]
      ensures err == teams.outcome(old(teams.calls), TeamRepoRemove(org, team, repo))
    {
      err := teams.Send(TeamRepoRemove(org, team, repo));
    }

    /**
     * `GetNestedTeams`: lists the organisation's teams, then fetches the
     * named team, then keeps the listed teams whose parent has its id. A
     * listing error is returned before the team is fetched.
     */
    method GetNestedTeams(org: string, team: string) returns (r: Result<seq<Team>>)
      modifies teams
      ensures var listed := teams.teams(old(teams.calls), TeamList(org));
        && (listed.Err? ==> r == Err(listed.error) && teams.calls == old(teams.calls) + [TeamList(org)])
        && (listed.Ok? ==> teams.calls == old(teams.calls) + [TeamList(org), TeamGet(org, team)])
      ensures var listed := teams.teams(old(teams.calls), TeamList(org));
        var parent := teams.team(old(teams.calls) + [TeamList(org)], TeamGet(org, team));
        && (listed.Ok? && parent.Err? ==> r == Err(parent.error))
        && (listed.Ok? && parent.Ok? ==> r == Ok(Children(listed.value, parent.value.id)))
    {
      var listed := ListTeams(org);
      if listed.Err? {
        return Err(listed.error);
      }
      var parent := GetTeam(org, team);
      if parent.Err? {
        return Err(parent.error);
      }
      var all := listed.value;
      var nested: seq<Team> := [];
      var i := 0;
      while i < |all|
        invariant 0 <= i <= |all|
        invariant nested == Children(all[..i], parent.value.id)
      {
        assert all[..i + 1][..i] == all[..i];
        if all[i].parent.Some? && all[i].parent.value.id == parent.value.id {
          nested := nested + [all[i]];
        }
        i := i + 1;
      }
      assert all[..i] == all;
      return Ok(nested);
    }
  }
}
