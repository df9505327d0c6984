/** The first prototype of the agent (`src/prototype.py`): the same kind of
    graph, without a clarification round and without a checkpoint store, over a
    hard-coded roster of three teams, with a reply built without the model. */
module Prototype {
  import opened Wrappers
  import opened Text
  import opened Assoc

  /** The prototype's own pydantic `Player`: a shirt number instead of a birth date. */
  datatype Player = Player(name: string, position: string, number: int)

  datatype Squad = Squad(name: string, players: seq<Player>)

  /** `MockedSquadAPI`: the `_squads` dictionary, fixed at construction. */
  datatype MockedSquadAPI = MockedSquadAPI(squads: Dict<string, Squad>)

  function OneKeeper(club: string, keeper: string): Squad
  {
    Squad(club, [Player(keeper, "Goalkeeper", 1)])
  }

  /** The module-level `MOCKED_SQUAD_API`. */
  const MockedSquads: MockedSquadAPI := MockedSquadAPI([
    ("manchester united", OneKeeper("Manchester United", "John Manchester")),
    ("manchester city", OneKeeper("Manchester City", "John Manchester City")),
    ("liverpool", OneKeeper("Liverpool", "John Liverpool"))
  ])

  const MockedTeams: seq<string> := ["manchester united", "manchester city", "liverpool"]

  /** `available_teams`: the keys of the dictionary, in insertion order. */
  function AvailableTeams(api: MockedSquadAPI): (teams: seq<string>)
    ensures |teams| == |api.squads|
    ensures forall t :: t in teams <==> Get(api.squads, t).Some?
  {
    Keys(api.squads)
  }

  /** `search_squad`: `dict.get` (the half-second sleep is left out). */
  function SearchSquad(api: MockedSquadAPI, teamName: string): (r: Option<Squad>)
    ensures r.Some? <==> teamName in AvailableTeams(api)
  {
    Get(api.squads, teamName)
  }

  /** The mock lists exactly its three teams, and a lookup of any other name
      comes back empty. */
  lemma MockedRoster(teamName: string)
    ensures AvailableTeams(MockedSquads) == MockedTeams
    ensures SearchSquad(MockedSquads, teamName).Some? <==> teamName in MockedTeams
    ensures teamName == "manchester united" ==>
      SearchSquad(MockedSquads, teamName) == Some(OneKeeper("Manchester United", "John Manchester"))
    ensures teamName == "manchester city" ==>
      SearchSquad(MockedSquads, teamName) == Some(OneKeeper("Manchester City", "John Manchester City"))
    ensures teamName == "liverpool" ==>
      SearchSquad(MockedSquads, teamName) == Some(OneKeeper("Liverpool", "John Liverpool"))
    ensures SearchSquad(MockedSquads, teamName).Some? ==>
      var players := SearchSquad(MockedSquads, teamName).value.players;
      |players| == 1 && players[0].position == "Goalkeeper" && players[0].number == 1
  {
    assert Keys(MockedSquads.squads) == MockedTeams;
  }

  // ---------------------------------------------------------------------
  // The language model

  /** The two prompts of the prototype, each a fixed instruction followed by
      `User Query: ` and the query. */
  datatype Prompt = AskRelevant(query: string) | AskTeamName(query: string)

  type Model = Prompt -> string

  // ---------------------------------------------------------------------
  // Rendering

  /** Python's `repr` of a string without quotes or backslashes in it. */
  function QuotedRepr(s: string): string
  {
    "'" + s + "'"
  }

  /** The pydantic `repr` of a player. */
  function PlayerRepr(p: Player): string
  {
    "Player(name=" + QuotedRepr(p.name) + ", position=" + QuotedRepr(p.position)
      + ", number=" + IntToString(p.number) + ")"
  }

  function PlayerReprs(ps: seq<Player>): (rs: seq<string>)
    ensures |rs| == |ps|
    ensures forall i :: 0 <= i < |ps| ==> rs[i] == PlayerRepr(ps[i])
  {
    seq(|ps|, i requires 0 <= i < |ps| => PlayerRepr(ps[i]))
  }

  /** `str(players)`: the reprs of the players, comma-separated, in brackets. */
  function ListRepr(ps: seq<Player>): string
  {
    "[" + Join(PlayerReprs(ps), ", ") + "]"
  }

  // ---------------------------------------------------------------------
  // State and nodes

  const Rejection: string :=
    "I cannot help you with that. Please ask a question regarding Premier League teams."
  const TeamNotFound: string := "Team not found. Sorry can you try again?"
  const NoUpper: string := "'NoneType' object has no attribute 'upper'"
  const NoPlayers: string := "'NoneType' object has no attribute 'players'"

  /** The fields of the prototype's `AgentState` dataclass. */
  datatype Values = Values(
    userQuery: string,
    teamName: Option<string>,
    squad: Option<Squad>,
    answer: Option<string>,
    teamFound: bool,
    valid: bool,
    success: bool)

  /** `AgentState(user_query=...)`: every other field at its default. */
  function Fresh(query: string): Values
  {
    Values(query, None, None, None, false, false, false)
  }

  /** An exception a handler raises. */
  datatype ProtoError = AttributeError(message: string)

  datatype Node = Validate | ExtractTeam | Clarify | GetSquad | FormulateResponse

  /** `_validate_query`: the query is relevant exactly when the reply, in
      lower case, contains "yes"; otherwise the rejection becomes the answer. */
  function ValidateStep(model: Model, v: Values): (w: Values)
    ensures w.valid <==> Contains(Lower(model(AskRelevant(v.userQuery))), "yes")
    ensures w.answer == if w.valid then v.answer else Some(Rejection)
    ensures w == v.(valid := w.valid, answer := w.answer)
  {
    if Contains(Lower(model(AskRelevant(v.userQuery))), "yes") then v.(valid := true)
    else v.(valid := false, answer := Some(Rejection))
  }

  /** `_extract_team`: the trimmed, lower-cased reply is the team name, and it
      is found exactly when the mock lists it. */
  function ExtractTeamStep(model: Model, api: MockedSquadAPI, v: Values): (w: Values)
    ensures w.teamName == Some(Lower(Strip(model(AskTeamName(v.userQuery)))))
    ensures w.teamFound <==> w.teamName.value in AvailableTeams(api)
    ensures w == v.(teamName := w.teamName, teamFound := w.teamFound)
  {
    var teamName := Lower(Strip(model(AskTeamName(v.userQuery))));
    v.(teamName := Some(teamName), teamFound := teamName in AvailableTeams(api))
  }

  /** `_ask_for_clarification`: only the fixed apology is set. */
  function ClarifyStep(v: Values): (w: Values)
    ensures w.answer == Some(TeamNotFound) && w == v.(answer := w.answer)
  {
    v.(answer := Some(TeamNotFound))
  }

  /** The module-level `search_squad`: the lookup of the stored name, which
      is empty for a missing name as for an unlisted one. */
  function GetSquadStep(api: MockedSquadAPI, v: Values): (w: Values)
    ensures w.squad.Some? <==> v.teamName.Some? && v.teamName.value in AvailableTeams(api)
    ensures w.squad.Some? ==> w.squad == SearchSquad(api, v.teamName.value)
    ensures w == v.(squad := w.squad)
  {
    v.(squad := if v.teamName.None? then None else SearchSquad(api, v.teamName.value))
  }

  /** `_formulate_response`: the upper-cased team name and the player list as
      Python prints it; a missing name or squad raises `AttributeError`, the
      name being evaluated first. */
  function FormulateResponseStep(v: Values): (r: Result<Values, ProtoError>)
    ensures r.Success? <==> v.teamName.Some? && v.squad.Some?
    ensures r.Success? ==> r.value == v.(
      answer := Some("The squad of " + Upper(v.teamName.value) + " is " + ListRepr(v.squad.value.players)),
      success := true)
    ensures v.teamName.None? ==> r == Failure(AttributeError(NoUpper))
  {
    if v.teamName.None? then Failure(AttributeError(NoUpper))
    else if v.squad.None? then Failure(AttributeError(NoPlayers))
    else
      var answer := "The squad of " + Upper(v.teamName.value) + " is " + ListRepr(v.squad.value.players);
      Success(v.(answer := Some(answer), success := true))
  }

  function Step(model: Model, api: MockedSquadAPI, n: Node, v: Values): (r: Result<Values, ProtoError>)
    ensures n != FormulateResponse ==> r.Success?
  {
    match n
    case Validate => Success(ValidateStep(model, v))
    case ExtractTeam => Success(ExtractTeamStep(model, api, v))
    case Clarify => Success(ClarifyStep(v))
    case GetSquad => Success(GetSquadStep(api, v))
    case FormulateResponse => FormulateResponseStep(v)
  }

  // ---------------------------------------------------------------------
  // Wiring

  /** The nodes each node has an edge to. */
  function Successors(n: Node): set<Node>
  {
    match n
    case Validate => {ExtractTeam}
    case ExtractTeam => {GetSquad, Clarify}
    case Clarify => {}
    case GetSquad => {FormulateResponse}
    case FormulateResponse => {}
  }

  /** The nodes with an edge to END. */
  predicate MayFinish(n: Node)
  {
    n in {Validate, Clarify, FormulateResponse}
  }

  function Rank(n: Node): nat
  {
    match n
    case Validate => 4
    case ExtractTeam => 3
    case GetSquad => 2
    case Clarify => 1
    case FormulateResponse => 1
  }

  /** The edges out of a node once it has run; `None` is END. Every edge leads
      to a successor of lower rank, so a run always ends. */
  function Route(n: Node, v: Values): (next: Option<Node>)
    ensures next.Some? ==> next.value in Successors(n) && Rank(next.value) < Rank(n)
    ensures next.None? ==> MayFinish(n)
  {
    match n
    case Validate => if v.valid then Some(ExtractTeam) else None
    case ExtractTeam => if v.teamFound then Some(GetSquad) else Some(Clarify)
    case Clarify => None
    case GetSquad => Some(FormulateResponse)
    case FormulateResponse => None
  }

  /** The conditional edges: Validate goes on exactly for a relevant query,
      ExtractTeam fetches the squad exactly for a found team and otherwise
      asks for clarification, and Clarify and FormulateResponse end the run. */
  lemma RoutingRules(v: Values)
    ensures Route(Validate, v) == (if v.valid then Some(ExtractTeam) else None)
    ensures Route(ExtractTeam, v) == (if v.teamFound then Some(GetSquad) else Some(Clarify))
    ensures Route(Clarify, v).None? && Route(FormulateResponse, v).None?
    ensures Route(GetSquad, v) == Some(FormulateResponse)
  {
  }

  /** A graph run: the final values, or the error a node raised, and the nodes
      that completed. */
  datatype Run = Run(result: Result<Values, ProtoError>, trace: seq<Node>)

  /** The compiled graph run from node `cur`; with no checkpoint store a raised
      error leaves nothing behind. */
  function Execute(model: Model, api: MockedSquadAPI, v: Values, cur: Node): Run
    decreases Rank(cur)
  {
    match Step(model, api, cur, v)
    case Failure(e) => Run(Failure(e), [])
    case Success(w) =>
      match Route(cur, w)
      case None => Run(Success(w), [cur])
      case Some(next) =>
        var rest := Execute(model, api, w, next);
        rest.(trace := [cur] + rest.trace)
  }

  /** The values on entry to FormulateResponse along the graph: a found team
      whose squad the previous node stored. */
  predicate Found(api: MockedSquadAPI, v: Values)
  {
    v.teamName.Some? && v.teamName.value in AvailableTeams(api)
    && v.squad == SearchSquad(api, v.teamName.value)
  }

  /** What a node's run reaches, when started from values that satisfy the
      matching entry condition. */
  predicate Entry(api: MockedSquadAPI, n: Node, v: Values)
  {
    match n
    case GetSquad => v.teamName.Some? && v.teamFound == (v.teamName.value in AvailableTeams(api)) && v.teamFound
    case FormulateResponse => Found(api, v)
    case _ => true
  }

  /** Along the graph the entry condition of the next node always holds, so
      the `AttributeError` paths of FormulateResponse are unreachable: a run
      from any node entered properly never raises. */
  lemma {:induction false} ExecuteNeverRaises(model: Model, api: MockedSquadAPI, v: Values, cur: Node)
    requires Entry(api, cur, v)
    ensures Execute(model, api, v, cur).result.Success?
    decreases Rank(cur)
  {
    match Step(model, api, cur, v)
    case Failure(e) =>
      assert false;
    case Success(w) =>
      match Route(cur, w)
      case None =>
      case Some(next) =>
        assert Entry(api, next, w);
        ExecuteNeverRaises(model, api, w, next);
  }

  /** The reply for a team name: the rendered squad of a listed team, the
      apology for any other name. */
  function TeamAnswer(api: MockedSquadAPI, teamName: string): string
  {
    match SearchSquad(api, teamName)
    case None => TeamNotFound
    case Some(squad) => "The squad of " + Upper(teamName) + " is " + ListRepr(squad.players)
  }

  /** A squad of one player is printed as a one-element list. */
  lemma OnePlayerAnswer(api: MockedSquadAPI, teamName: string, p: Player)
    requires SearchSquad(api, teamName).Some? && SearchSquad(api, teamName).value.players == [p]
    ensures TeamAnswer(api, teamName) == "The squad of " + Upper(teamName) + " is [" + PlayerRepr(p) + "]"
  {
    assert PlayerReprs([p]) == [PlayerRepr(p)];
  }

  /** Every mocked team answers with its one goalkeeper, shirt number 1, in
      a one-element list. */
  lemma MockedAnswers(teamName: string)
    requires teamName in MockedTeams
    ensures var keeper := SearchSquad(MockedSquads, teamName).value.players[0];
      && keeper.position == "Goalkeeper" && keeper.number == 1
      && TeamAnswer(MockedSquads, teamName) == "The squad of " + Upper(teamName) + " is [" + PlayerRepr(keeper) + "]"
  {
    MockedRoster(teamName);
    var players := SearchSquad(MockedSquads, teamName).value.players;
    assert players == [players[0]];
    OnePlayerAnswer(MockedSquads, teamName, players[0]);
  }

  /** The reply a fresh run ends with, written without the graph: the
      rejection for an irrelevant query, else the reply for the named team. */
  function ExpectedAnswer(model: Model, api: MockedSquadAPI, query: string): string
  {
    if !Relevant(model, query) then Rejection else TeamAnswer(api, ExtractedName(model, query))
  }

  predicate Relevant(model: Model, query: string)
  {
    Contains(Lower(model(AskRelevant(query))), "yes")
  }

  function ExtractedName(model: Model, query: string): string
  {
    Lower(Strip(model(AskTeamName(query))))
  }

  /** The nodes a fresh run passes, written without the graph. */
  function ExpectedPath(model: Model, api: MockedSquadAPI, query: string): seq<Node>
  {
    if !Relevant(model, query) then [Validate]
    else [Validate] + PathAfterValidate(ExtractedName(model, query) in AvailableTeams(api))
  }

  /** The nodes after Validate: through the squad for a listed name, through
      the apology otherwise. */
  function PathAfterValidate(known: bool): seq<Node>
  {
    if known then [ExtractTeam, GetSquad, FormulateResponse] else [ExtractTeam, Clarify]
  }

  /** One node that completes and hands over to the next. */
  lemma ExecuteOn(model: Model, api: MockedSquadAPI, v: Values, cur: Node, w: Values, next: Node)
    requires Step(model, api, cur, v) == Success(w) && Route(cur, w) == Some(next)
    ensures var rest := Execute(model, api, w, next);
            Execute(model, api, v, cur) == rest.(trace := [cur] + rest.trace)
  {
  }

  /** `whole` is the nodes `trace` already run followed by the run from `cur`
      on `current`. */
  ghost predicate Continues(model: Model, api: MockedSquadAPI, whole: Run, current: Values, cur: Node, trace: seq<Node>)
  {
    var rest := Execute(model, api, current, cur);
    whole == rest.(trace := trace + rest.trace)
  }

  lemma ContinuesOn(model: Model, api: MockedSquadAPI, whole: Run, current: Values, cur: Node, trace: seq<Node>,
                    updated: Values, next: Node)
    requires Continues(model, api, whole, current, cur, trace)
    requires Step(model, api, cur, current) == Success(updated) && Route(cur, updated) == Some(next)
    ensures Continues(model, api, whole, updated, next, trace + [cur])
  {
    ExecuteOn(model, api, current, cur, updated, next);
    var rest := Execute(model, api, updated, next);
    assert trace + ([cur] + rest.trace) == trace + [cur] + rest.trace;
  }

  lemma ContinuesStops(model: Model, api: MockedSquadAPI, whole: Run, current: Values, cur: Node, trace: seq<Node>,
                       last: Run)
    requires Continues(model, api, whole, current, cur, trace)
    requires Execute(model, api, current, cur) == last
    ensures whole == last.(trace := trace + last.trace)
  {
  }

  /** One node that raises. */
  lemma ExecuteFails(model: Model, api: MockedSquadAPI, v: Values, cur: Node, e: ProtoError)
    requires Step(model, api, cur, v) == Failure(e)
    ensures Execute(model, api, v, cur) == Run(Failure(e), [])
  {
  }

  /** One node that completes and ends the graph. */
  lemma ExecuteDone(model: Model, api: MockedSquadAPI, v: Values, cur: Node, w: Values)
    requires Step(model, api, cur, v) == Success(w) && Route(cur, w).None?
    ensures Execute(model, api, v, cur) == Run(Success(w), [cur])
  {
  }

  /** From a found team on: the squad is looked up and the reply rendered. */
  lemma FoundRun(model: Model, api: MockedSquadAPI, v: Values)
    requires Entry(api, GetSquad, v)
    ensures var run := Execute(model, api, v, GetSquad);
      && run.trace == [GetSquad, FormulateResponse]
      && run.result.Success?
      && run.result.value.userQuery == v.userQuery
      && run.result.value.answer == Some(TeamAnswer(api, v.teamName.value))
      && run.result.value.success
  {
    var v3 := GetSquadStep(api, v);
    var v4 := FormulateResponseStep(v3).value;
    ExecuteDone(model, api, v3, FormulateResponse, v4);
    ExecuteOn(model, api, v, GetSquad, v3, FormulateResponse);
  }

  /** From ExtractTeam on: the reply for the extracted name, through the
      squad exactly when the name is listed, and a success exactly then. */
  lemma ExtractRun(model: Model, api: MockedSquadAPI, v: Values)
    requires !v.success
    ensures var run := Execute(model, api, v, ExtractTeam);
      var known := ExtractedName(model, v.userQuery) in AvailableTeams(api);
      && run.result.Success?
      && run.result.value.userQuery == v.userQuery
      && run.result.value.answer == Some(TeamAnswer(api, ExtractedName(model, v.userQuery)))
      && run.trace == PathAfterValidate(known)
      && run.result.value.success == known
  {
    var v2 := ExtractTeamStep(model, api, v);
    if v2.teamFound {
      FoundRun(model, api, v2);
      ExecuteOn(model, api, v, ExtractTeam, v2, GetSquad);
    } else {
      ExecuteDone(model, api, v2, Clarify, ClarifyStep(v2));
      ExecuteOn(model, api, v, ExtractTeam, v2, Clarify);
    }
  }

  /** A fresh run never raises, answers what `ExpectedAnswer` says, passes
      the nodes `ExpectedPath` says, and succeeds exactly when the query is
      relevant and names a listed team. */
  lemma FreshRun(model: Model, api: MockedSquadAPI, query: string)
    ensures var run := Execute(model, api, Fresh(query), Validate);
      && run.result.Success?
      && run.result.value.answer == Some(ExpectedAnswer(model, api, query))
      && run.result.value.userQuery == query
      && run.trace == ExpectedPath(model, api, query)
      && (run.result.value.success <==>
            Relevant(model, query) && ExtractedName(model, query) in AvailableTeams(api))
  {
    var v1 := ValidateStep(model, Fresh(query));
    if v1.valid {
      RelevantRun(model, api, query);
    } else {
      ExecuteDone(model, api, Fresh(query), Validate, v1);
    }
  }

  /** A fresh run of a relevant query: Validate, then the run from ExtractTeam. */
  lemma RelevantRun(model: Model, api: MockedSquadAPI, query: string)
    requires Relevant(model, query)
    ensures var run := Execute(model, api, Fresh(query), Validate);
      var rest := Execute(model, api, ValidateStep(model, Fresh(query)), ExtractTeam);
      run == rest.(trace := [Validate] + rest.trace)
      && run.result.Success?
      && run.result.value.answer == Some(ExpectedAnswer(model, api, query))
      && run.result.value.userQuery == query
      && run.trace == ExpectedPath(model, api, query)
      && run.result.value.success == (ExtractedName(model, query) in AvailableTeams(api))
  {
    var v1 := ValidateStep(model, Fresh(query));
    assert v1 == Fresh(query).(valid := true);
    ExtractRun(model, api, v1);
    ExecuteOn(model, api, Fresh(query), Validate, v1, ExtractTeam);
  }

  // ---------------------------------------------------------------------
  // The imperative handlers

  /** The mutable state object each handler receives and updates. */
  class AgentState {
    var userQuery: string
    var teamName: Option<string>
    var squad: Option<Squad>
    var answer: Option<string>
    var teamFound: bool
    var valid: bool
    var success: bool

    constructor (v: Values)
      ensures Snapshot() == v
    {
      userQuery := v.userQuery;
      teamName := v.teamName;
      squad := v.squad;
      answer := v.answer;
      teamFound := v.teamFound;
      valid := v.valid;
      success := v.success;
    }

    function Snapshot(): Values
      reads this
    {
      Values(userQuery, teamName, squad, answer, teamFound, valid, success)
    }
  }

  /** The module-level `search_squad` node, on the roster `squads`. */
  method SearchSquadNode(squads: MockedSquadAPI, state: AgentState)
    modifies state
    ensures state.Snapshot() == GetSquadStep(squads, old(state.Snapshot()))
  {
    var squad := if state.teamName.None? then None else SearchSquad(squads, state.teamName.value);
    state.squad := squad;
  }

  /** The prototype's `PremierLeagueAgent`. The model is fixed at construction;
      `squads` is the module-level `MOCKED_SQUAD_API` its nodes read. */
  class PremierLeagueAgent {
    const model: Model
    const squads: MockedSquadAPI

    constructor (model: Model)
      ensures this.model == model && squads == MockedSquads
    {
      this.model := model;
      squads := MockedSquads;
    }

    method ValidateQuery(state: AgentState)
      modifies state
      ensures state.Snapshot() == ValidateStep(model, old(state.Snapshot()))
    {
      var response := model(AskRelevant(state.userQuery));
      if Contains(Lower(response), "yes") {
        state.valid := true;
      } else {
        state.valid := false;
        state.answer := Some(Rejection);
      }
    }

    method ExtractTeam(state: AgentState)
      modifies state
      ensures state.Snapshot() == ExtractTeamStep(model, squads, old(state.Snapshot()))
    {
      var response := model(AskTeamName(state.userQuery));
      var teamName := Lower(Strip(response));
      var isFound := teamName in AvailableTeams(squads);
      state.teamName := Some(teamName);
      state.teamFound := isFound;
    }

    method AskForClarification(state: AgentState)
      modifies state
      ensures state.Snapshot() == ClarifyStep(old(state.Snapshot()))
    {
      state.answer := Some(TeamNotFound);
    }

    /** `_formulate_response`; a raised error leaves the state untouched. */
    method FormulateResponse(state: AgentState) returns (outcome: Outcome<ProtoError>)
      modifies state
      ensures var r := FormulateResponseStep(old(state.Snapshot()));
        && (outcome.Pass? <==> r.Success?)
        && (r.Success? ==> state.Snapshot() == r.value)
        && (r.Failure? ==> outcome == Fail(r.error) && state.Snapshot() == old(state.Snapshot()))
    {
      var squad := state.squad;
      if state.teamName.None? {
        return Fail(AttributeError(NoUpper));
      }
      if squad.None? {
        return Fail(AttributeError(NoPlayers));
      }
      var answer := "The squad of " + Upper(state.teamName.value) + " is " + ListRepr(squad.value.players);
      state.answer := Some(answer);
      state.success := true;
      outcome := Pass;
    }

    method RunNode(n: Node, state: AgentState) returns (outcome: Outcome<ProtoError>)
      modifies state
      ensures var r := Step(model, squads, n, old(state.Snapshot()));
        && (outcome.Pass? <==> r.Success?)
        && (r.Success? ==> state.Snapshot() == r.value)
        && (r.Failure? ==> outcome == Fail(r.error))
    {
      match n {
        case Validate => ValidateQuery(state); outcome := Pass;
        case ExtractTeam => ExtractTeam(state); outcome := Pass;
        case Clarify => AskForClarification(state); outcome := Pass;
        case GetSquad => SearchSquadNode(squads, state); outcome := Pass;
        case FormulateResponse => outcome := FormulateResponse(state);
      }
    }

    /** One node on a fresh state object built from `values`, and the values
        read back from it. */
    method RunNodeOn(n: Node, values: Values) returns (outcome: Outcome<ProtoError>, updated: Values)
      ensures var r := Step(model, squads, n, values);
        && (outcome.Pass? <==> r.Success?)
        && (r.Success? ==> updated == r.value)
        && (r.Failure? ==> outcome == Fail(r.error))
    {
      var state := new AgentState(values);
      outcome := RunNode(n, state);
      updated := state.Snapshot();
    }

    /** The compiled graph run from node `node`, one step at a time until a
        node raises or an edge leads to END. */
    method RunGraph(values: Values, node: Node) returns (run: Run)
      ensures run == Execute(model, squads, values, node)
    {
      ghost var whole := Execute(model, squads, values, node);
      var current, cur := values, node;
      var trace: seq<Node> := [];
      assert [] + whole.trace == whole.trace;
      while true
        invariant Continues(model, squads, whole, current, cur, trace)
        decreases Rank(cur)
      {
        var outcome, updated := RunNodeOn(cur, current);
        if outcome.Fail? {
          ExecuteFails(model, squads, current, cur, outcome.error);
          ContinuesStops(model, squads, whole, current, cur, trace, Run(Failure(outcome.error), []));
          assert trace + [] == trace;
          return Run(Failure(outcome.error), trace);
        }
        var next := Route(cur, updated);
        if next.None? {
          ExecuteDone(model, squads, current, cur, updated);
          ContinuesStops(model, squads, whole, current, cur, trace, Run(Success(updated), [cur]));
          return Run(Success(updated), trace + [cur]);
        }
        ContinuesOn(model, squads, whole, current, cur, trace, updated, next.value);
        current, cur, trace := updated, next.value, trace + [cur];
      }
    }

    /** `_invoke`: the graph from `Validate` on `AgentState(user_query=...)`. */
    method Invoke(query: string) returns (run: Run)
      ensures run == Execute(model, squads, Fresh(query), Validate)
    {
      run := RunGraph(Fresh(query), Validate);
    }

    /** `ask`: the final answer of a fresh run, which is always set. */
    method Ask(query: string) returns (answer: Option<string>)
      ensures answer == Some(ExpectedAnswer(model, squads, query))
    {
      var run := Invoke(query);
      FreshRun(model, squads, query);
      answer := run.result.value.answer;
    }
  }
}
