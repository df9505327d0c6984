/** `SportDBApi` (`src/backend/premier_league_api/sportdb.py`): a fixed table
    from the league's team names to the remote service's team ids, and a
    squad lookup that asks the service for the players of one id. The HTTP
    exchange is an input: `Transport` gives the response the service sends
    for a URL. */
module SportDbRoster {
  import opened Wrappers
  import opened Assoc
  import opened Text
  import opened Squads
  import opened RosterApi

  /** The decoded JSON body; only its `list` member is read. `None` stands for
      a body without that member (or with `null` there). */
  datatype Body = Body(list: Option<seq<RawPlayer>>)

  datatype Response = Response(statusCode: int, body: Body)

  /** The remote service: the response to a GET of the URL. */
  type Transport = string -> Response

  const BaseUrl: string := "https://www.thesportsdb.com/api/v2/json"

  /** `Endpoints.TEAM_SQUAD` with its `{team_id}` placeholder at the end. */
  const TeamSquadEndpoint: string := "list/players/"

  const HttpOk: int := 200

  /** `_PREMIERE_LEAGUE_TEAMS_TO_ID`, in the order of the source. */
  const TeamsToId: Dict<string, string> := [
    ("wolverhampton wanderers", "133599"),
    ("fulham", "133600"),
    ("aston villa", "133601"),
    ("liverpool", "133602"),
    ("sunderland", "133603"),
    ("arsenal", "133604"),
    ("chelsea", "133610"),
    ("manchester united", "133612"),
    ("manchester city", "133613"),
    ("everton", "133615"),
    ("tottenham hotspur", "133616"),
    ("brighton and hove albion", "133619"),
    ("burnley", "133623"),
    ("crystal palace", "133632"),
    ("leeds united", "133635"),
    ("west ham united", "133636"),
    ("nottingham forest", "133720"),
    ("bournemouth", "134301"),
    ("brentford", "134355"),
    ("newcastle united", "134777")
  ]

  /** `get_teams`: the table's names, in table order. */
  function GetTeams(): (teams: seq<string>)
    ensures |teams| == |TeamsToId|
    ensures forall i :: 0 <= i < |teams| ==> teams[i] == TeamsToId[i].0
    ensures forall t :: t in teams <==> Get(TeamsToId, t).Some?
  {
    Keys(TeamsToId)
  }

  /** The URL `_base_request` fetches for an endpoint. */
  function RequestUrl(endpoint: string): (url: string)
    ensures |url| == |BaseUrl| + 1 + |endpoint|
    ensures url[..|BaseUrl|] == BaseUrl && url[|BaseUrl|] == '/' && url[|BaseUrl| + 1..] == endpoint
  {
    BaseUrl + "/" + endpoint
  }

  /** `Endpoints.TEAM_SQUAD.format(team_id=team_id)`. */
  function SquadEndpoint(teamId: string): string
  {
    TeamSquadEndpoint + teamId
  }

  function StatusMessage(url: string, statusCode: int): string
  {
    "Failed to fetch team squad from " + url + ", status code: " + IntToString(statusCode)
  }

  /** `_base_request`: one GET of the endpoint under the base URL; any status
      but 200 OK raises `APIError`, otherwise the decoded body is returned. */
  function BaseRequest(transport: Transport, endpoint: string): (r: Result<Body, ApiError>)
    ensures r.Success? <==> transport(RequestUrl(endpoint)).statusCode == HttpOk
    ensures r.Success? ==> r.value == transport(RequestUrl(endpoint)).body
    ensures r.Failure? ==> r.error.APIError?
  {
    var url := RequestUrl(endpoint);
    var response := transport(url);
    if response.statusCode != HttpOk then Failure(APIError(StatusMessage(url, response.statusCode)))
    else Success(response.body)
  }

  /** `record.get(key, "")`. */
  function GetOrEmpty(record: RawPlayer, key: string): (v: string)
    ensures key in record ==> v == record[key]
    ensures key !in record ==> v == ""
  {
    if key in record then record[key] else ""
  }

  /** One `Player(...)` of the comprehension: name and position default to
      the empty text, and the birth date must parse (a missing one is the
      empty text, which does not). */
  function ToPlayer(fromIsoFormat: DateParser, p: RawPlayer): (r: Result<Player, ApiError>)
    ensures r.Success? <==> fromIsoFormat(GetOrEmpty(p, "dateBorn")).Some?
    ensures r.Success? ==>
      && r.value.name == GetOrEmpty(p, "strPlayer")
      && r.value.position == GetOrEmpty(p, "strPosition")
      && Some(r.value.dateOfBirth) == fromIsoFormat(GetOrEmpty(p, "dateBorn"))
    ensures r.Failure? ==> r.error == ValueError(GetOrEmpty(p, "dateBorn"))
  {
    var born := GetOrEmpty(p, "dateBorn");
    match fromIsoFormat(born)
    case None => Failure(ValueError(born))
    case Some(dateOfBirth) =>
      Success(Player(GetOrEmpty(p, "strPlayer"), dateOfBirth, GetOrEmpty(p, "strPosition")))
  }

  function Converter(fromIsoFormat: DateParser): RawPlayer -> Result<Player, ApiError>
  {
    p => ToPlayer(fromIsoFormat, p)
  }

  function NotFoundMessage(teamName: string): string
  {
    "Team " + teamName + " not found"
  }

  function NoPlayersMessage(teamName: string): string
  {
    "Players for team " + teamName + " not found"
  }

  /** What `get_team_squad` makes of the request's outcome: a raised
      `APIError` propagates, the body must carry a non-empty player list, and
      then there is one player per entry, in order. */
  function SquadFromBody(fromIsoFormat: DateParser, teamName: string, request: Result<Body, ApiError>): (r: Result<Squad, ApiError>)
    requires request.Failure? ==> request.error.APIError?
    ensures r.Failure? ==> r.error.APIError? || r.error.ValueError?
    ensures r.Success? ==> r.value.name == teamName
  {
    match request
    case Failure(e) => Failure(e)
    case Success(response) =>
      var players := if response.list.Some? then response.list.value else [];
      if players == [] then Failure(APIError(NoPlayersMessage(teamName)))
      else
        match ConvertAll(players, Converter(fromIsoFormat))
        case Failure(e) =>
          ConvertAllFirstError(players, Converter(fromIsoFormat));
          Failure(e)
        case Success(ps) => Success(Squad(teamName, ps))
  }

  /** `get_team_squad`: the id lookup happens before any request, and only
      then is the team's squad URL fetched. */
  function GetTeamSquad(transport: Transport, fromIsoFormat: DateParser, teamName: string): (r: Result<Squad, ApiError>)
    ensures (r.Failure? && r.error.TeamNotFound?) <==> teamName !in GetTeams()
    ensures teamName !in GetTeams() ==> r == Failure(TeamNotFound(NotFoundMessage(teamName)))
    ensures r.Failure? ==> r.error.TeamNotFound? || r.error.APIError? || r.error.ValueError?
    ensures r.Success? ==> r.value.name == teamName
  {
    match Get(TeamsToId, teamName)
    case None => Failure(TeamNotFound(NotFoundMessage(teamName)))
    case Some(teamId) =>
      IdsNonEmpty(teamName, teamId);
      if teamId == "" then Failure(TeamNotFound(NotFoundMessage(teamName)))
      else SquadFromBody(fromIsoFormat, teamName, BaseRequest(transport, SquadEndpoint(teamId)))
  }

  /** The table lists the twenty clubs of the league. */
  lemma TableSize()
    ensures |GetTeams()| == 20
  {
  }

  /** No name is listed twice, so each name finds its own id. */
  lemma TableKeysDistinct()
    ensures DistinctKeys(TeamsToId)
  {
    forall i, j | 0 <= i < j < |TeamsToId|
      ensures TeamsToId[i].0 != TeamsToId[j].0
    {
      // No two names share both their length and their first letter.
      assert |TeamsToId[i].0| != |TeamsToId[j].0| || TeamsToId[i].0[0] != TeamsToId[j].0[0];
    }
  }

  /** Every id of the table is non-empty, so the falsy-id test never fires. */
  lemma TableIdsNonEmpty()
    ensures forall i :: 0 <= i < |TeamsToId| ==> TeamsToId[i].1 != ""
  {
  }

  lemma IdsNonEmpty(teamName: string, teamId: string)
    requires (teamName, teamId) in TeamsToId
    ensures teamId != ""
  {
    TableIdsNonEmpty();
  }

  /** The URL fetched for a listed team is the base URL, a slash, the squad
      endpoint and the team's id. */
  lemma SquadRequestUrl(i: nat)
    requires i < |TeamsToId|
    ensures Get(TeamsToId, TeamsToId[i].0) == Some(TeamsToId[i].1)
    ensures RequestUrl(SquadEndpoint(TeamsToId[i].1))
            == BaseUrl + "/" + TeamSquadEndpoint + TeamsToId[i].1
  {
    TableKeysDistinct();
    GetBinding(TeamsToId, i);
  }

  /** An unknown team is rejected before any request: the outcome is the same
      whatever the service would have answered. */
  lemma UnknownTeamSendsNoRequest(t1: Transport, t2: Transport, fromIsoFormat: DateParser, teamName: string)
    requires teamName !in GetTeams()
    ensures GetTeamSquad(t1, fromIsoFormat, teamName) == GetTeamSquad(t2, fromIsoFormat, teamName)
  {
  }

  /** For a listed team only the response to that team's squad URL matters. */
  lemma OnlyTheTeamUrlIsFetched(t1: Transport, t2: Transport, fromIsoFormat: DateParser, teamName: string, teamId: string)
    requires Get(TeamsToId, teamName) == Some(teamId)
    requires t1(RequestUrl(SquadEndpoint(teamId))) == t2(RequestUrl(SquadEndpoint(teamId)))
    ensures GetTeamSquad(t1, fromIsoFormat, teamName) == GetTeamSquad(t2, fromIsoFormat, teamName)
  {
    var request := BaseRequest(t1, SquadEndpoint(teamId));
    assert request == BaseRequest(t2, SquadEndpoint(teamId));
    IdsNonEmpty(teamName, teamId);
    assert GetTeamSquad(t1, fromIsoFormat, teamName) == SquadFromBody(fromIsoFormat, teamName, request);
  }

  /** A listed team's lookup fails with `APIError` when the status is not OK,
      and also when the body has no players. */
  lemma FailedResponses(transport: Transport, fromIsoFormat: DateParser, i: nat)
    requires i < |TeamsToId|
    ensures var response := transport(RequestUrl(SquadEndpoint(TeamsToId[i].1)));
            var r := GetTeamSquad(transport, fromIsoFormat, TeamsToId[i].0);
            (response.statusCode != HttpOk ==> r.Failure? && r.error.APIError?)
            && (response.statusCode == HttpOk && (response.body.list.None? || response.body.list == Some([]))
                ==> r == Failure(APIError(NoPlayersMessage(TeamsToId[i].0))))
  {
    SquadRequestUrl(i);
    TableIdsNonEmpty();
  }

  /** A successful lookup lists one player per entry of the response, in
      order, each built from its entry's fields. */
  lemma SquadFromResponse(transport: Transport, fromIsoFormat: DateParser, i: nat, j: nat)
    requires i < |TeamsToId|
    requires GetTeamSquad(transport, fromIsoFormat, TeamsToId[i].0).Success?
    ensures var response := transport(RequestUrl(SquadEndpoint(TeamsToId[i].1)));
            var squad := GetTeamSquad(transport, fromIsoFormat, TeamsToId[i].0).value;
            response.statusCode == HttpOk && response.body.list.Some?
            && |squad.players| == |response.body.list.value| > 0
            && (j < |squad.players| ==>
                  squad.players[j].name == GetOrEmpty(response.body.list.value[j], "strPlayer")
                  && squad.players[j].position == GetOrEmpty(response.body.list.value[j], "strPosition"))
  {
    SquadRequestUrl(i);
    TableIdsNonEmpty();
    var response := transport(RequestUrl(SquadEndpoint(TeamsToId[i].1)));
    if j < |response.body.list.value| {
      assert Converter(fromIsoFormat)(response.body.list.value[j]).Success?;
    }
  }
}
