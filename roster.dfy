/** The collaborator contract of `IPremierLeagueApi`
    (`src/backend/premier_league_api/base.py`): the agent is given one of the
    two providers and only calls `get_teams` and `get_team_squad`. */
module Roster {
  import opened Wrappers
  import opened Squads
  import opened RosterApi
  import LocalRoster
  import SportDbRoster

  /** A provider together with the collaborators it calls: the date parser,
      and for SportDB the remote service. */
  datatype Provider =
      Local(api: LocalRoster.LocalPremierLeagueApi, fromIsoFormat: DateParser)
    | SportDb(transport: SportDbRoster.Transport, fromIsoFormat: DateParser)

  function GetTeams(provider: Provider): seq<string>
  {
    match provider
    case Local(api, _) => LocalRoster.GetTeams(api)
    case SportDb(_, _) => SportDbRoster.GetTeams()
  }

  /** Both providers reject a name with `TeamNotFound` exactly when it is not
      one of their teams, and name a found squad after the requested team. */
  function GetTeamSquad(provider: Provider, teamName: string): (r: Result<Squad, ApiError>)
    ensures (r.Failure? && r.error.TeamNotFound?) <==> teamName !in GetTeams(provider)
    ensures r.Success? ==> r.value.name == teamName
  {
    match provider
    case Local(api, fromIsoFormat) => LocalRoster.GetTeamSquad(api, fromIsoFormat, teamName)
    case SportDb(transport, fromIsoFormat) => SportDbRoster.GetTeamSquad(transport, fromIsoFormat, teamName)
  }

  /** `IPremierLeagueApi` as its callers see it: the team list and the squad
      lookup. */
  datatype SquadApi = SquadApi(teams: seq<string>, getTeamSquad: string -> Result<Squad, ApiError>)

  /** A provider seen through the interface. */
  function Api(provider: Provider): (api: SquadApi)
    ensures api.teams == GetTeams(provider)
    ensures forall t :: api.getTeamSquad(t) == GetTeamSquad(provider, t)
  {
    SquadApi(GetTeams(provider), t => GetTeamSquad(provider, t))
  }

  /** What every implementation promises: `TeamNotFound` exactly for a name
      outside the team list, and a found squad named after the request. */
  ghost predicate Honours(api: SquadApi)
  {
    forall t ::
      && ((api.getTeamSquad(t).Failure? && api.getTeamSquad(t).error.TeamNotFound?) <==> t !in api.teams)
      && (api.getTeamSquad(t).Success? ==> api.getTeamSquad(t).value.name == t)
  }

  /** Both providers honour the interface. */
  lemma ProvidersHonour(provider: Provider)
    ensures Honours(Api(provider))
  {
    var api := Api(provider);
    forall t
      ensures (api.getTeamSquad(t).Failure? && api.getTeamSquad(t).error.TeamNotFound?) <==> t !in api.teams
      ensures api.getTeamSquad(t).Success? ==> api.getTeamSquad(t).value.name == t
    {
      assert api.getTeamSquad(t) == GetTeamSquad(provider, t);
    }
  }
}
