/** `LocalPremierLeagueApi` (`src/backend/premier_league_api/local.py`): squads
    served from a JSON cache that was loaded once, in the constructor, and is
    only read afterwards. */
module LocalRoster {
  import opened Wrappers
  import opened Assoc
  import opened Squads
  import opened RosterApi

  /** The loaded `_data`: team names bound to their raw player records, in
      the order of the file. */
  datatype LocalPremierLeagueApi = LocalPremierLeagueApi(data: Dict<string, seq<RawPlayer>>)

  /** `get_teams`: the keys of the data, in file order; a name is listed
      exactly when the data has players for it. */
  function GetTeams(api: LocalPremierLeagueApi): (teams: seq<string>)
    ensures |teams| == |api.data|
    ensures forall i :: 0 <= i < |teams| ==> teams[i] == api.data[i].0
    ensures forall t :: t in teams <==> Get(api.data, t).Some?
  {
    Keys(api.data)
  }

  /** One `Player(name=p["name"], date_of_birth=..., position=p["position"])`:
      the fields are read in that order, so a missing `name` is reported
      before anything else, and a bad date before a missing `position`. */
  function ToPlayer(fromIsoFormat: DateParser, p: RawPlayer): (r: Result<Player, ApiError>)
    ensures r.Success? <==>
      "name" in p && "date_of_birth" in p && fromIsoFormat(p["date_of_birth"]).Some? && "position" in p
    ensures r.Success? ==>
      r.value == Player(p["name"], fromIsoFormat(p["date_of_birth"]).value, p["position"])
    ensures "name" !in p ==> r == Failure(KeyError("name"))
    ensures r.Failure? && r.error.KeyError? ==>
      r.error.key in {"name", "date_of_birth", "position"} && r.error.key !in p
    ensures r.Failure? && r.error.ValueError? ==>
      "date_of_birth" in p && r.error.text == p["date_of_birth"] && fromIsoFormat(p["date_of_birth"]).None?
    ensures r.Failure? ==> r.error.KeyError? || r.error.ValueError?
  {
    if "name" !in p then Failure(KeyError("name"))
    else if "date_of_birth" !in p then Failure(KeyError("date_of_birth"))
    else
      match fromIsoFormat(p["date_of_birth"])
      case None => Failure(ValueError(p["date_of_birth"]))
      case Some(dateOfBirth) =>
        if "position" !in p then Failure(KeyError("position"))
        else Success(Player(p["name"], dateOfBirth, p["position"]))
  }

  /** The comprehension's element expression, as a function of the record. */
  function Converter(fromIsoFormat: DateParser): RawPlayer -> Result<Player, ApiError>
  {
    p => ToPlayer(fromIsoFormat, p)
  }

  function NotFoundMessage(teamName: string): string
  {
    "Team " + teamName + " not found in local data"
  }

  /** `get_team_squad`: an exact lookup of the name (no normalisation), then
      one player per cached record, in order. */
  function GetTeamSquad(api: LocalPremierLeagueApi, fromIsoFormat: DateParser, teamName: string): (r: Result<Squad, ApiError>)
    ensures (r.Failure? && r.error.TeamNotFound?) <==> teamName !in GetTeams(api)
    ensures teamName !in GetTeams(api) ==> r == Failure(TeamNotFound(NotFoundMessage(teamName)))
    ensures r.Failure? ==> r.error.TeamNotFound? || r.error.KeyError? || r.error.ValueError?
    ensures r.Success? ==> r.value.name == teamName
    ensures r.Success? ==> |r.value.players| == |Get(api.data, teamName).value|
  {
    match Get(api.data, teamName)
    case None => Failure(TeamNotFound(NotFoundMessage(teamName)))
    case Some(raws) =>
      match ConvertAll(raws, Converter(fromIsoFormat))
      case Failure(e) =>
        ConvertAllFirstError(raws, Converter(fromIsoFormat));
        Failure(e)
      case Success(players) => Success(Squad(teamName, players))
  }

  /** On success the squad lists, in order, one player per raw record of the
      team, whose name and position are the record's. */
  lemma SquadFromRecords(api: LocalPremierLeagueApi, fromIsoFormat: DateParser, teamName: string, i: nat)
    requires GetTeamSquad(api, fromIsoFormat, teamName).Success?
    requires i < |GetTeamSquad(api, fromIsoFormat, teamName).value.players|
    ensures var raw := Get(api.data, teamName).value[i];
            var player := GetTeamSquad(api, fromIsoFormat, teamName).value.players[i];
            "name" in raw && "position" in raw && "date_of_birth" in raw
            && player.name == raw["name"] && player.position == raw["position"]
            && Some(player.dateOfBirth) == fromIsoFormat(raw["date_of_birth"])
  {
    var raws := Get(api.data, teamName).value;
    var convert := Converter(fromIsoFormat);
    assert ConvertAll(raws, convert).Success?;
    assert convert(raws[i]).Success?;
  }

  /** A team that is listed yields its squad unless one of its records is
      malformed, and then the error is that of the first malformed record. */
  lemma ListedTeamErrors(api: LocalPremierLeagueApi, fromIsoFormat: DateParser, teamName: string)
    requires teamName in GetTeams(api)
    requires GetTeamSquad(api, fromIsoFormat, teamName).Failure?
    ensures exists i :: 0 <= i < |Get(api.data, teamName).value|
              && ToPlayer(fromIsoFormat, Get(api.data, teamName).value[i]).Failure?
    ensures var raws := Get(api.data, teamName).value;
            var i := FirstFailure(raws, Converter(fromIsoFormat));
            GetTeamSquad(api, fromIsoFormat, teamName).error == ToPlayer(fromIsoFormat, raws[i]).error
  {
    var raws := Get(api.data, teamName).value;
    var convert := Converter(fromIsoFormat);
    assert ConvertAll(raws, convert).Failure?;
    assert GetTeamSquad(api, fromIsoFormat, teamName).error == ConvertAll(raws, convert).error;
    ConvertAllFirstError(raws, convert);
  }
}
