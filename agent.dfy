/** The conversation workflow of `PremierLeagueAgent`
    (`src/backend/agent.py`): six nodes over a shared `AgentState`, a pause
    before `UserClarify`, and one checkpoint per thread id that decides, for
    each incoming message, between resuming a paused clarification and a
    fresh run from `Validate`.

    The graph runtime is modelled by what it does for this graph: every node
    receives a fresh state object built from the stored values and returns
    it, the values it returns are committed together with the node that
    comes next, a node that raises commits nothing, and a run stops before
    `UserClarify` unless it is the run that resumes there. */
module Agent {
  import opened Wrappers
  import opened Text
  import opened Squads
  import Llm
  import FormulateAnswer
  import RosterApi
  import Roster

  const Rejection: string := "I cannot help you with that. Please ask a question regarding Premier League teams."
  const TeamNotResolved: string := "Sorry, I could not find the team you were asking about."
  const TeamNameNotSet: string := "Something went wrong. The team name should be set in this node."
  const SquadNotSet: string := "Something went wrong. The squad should be set in this node."

  datatype Node = Validate | ExtractTeam | Clarify | UserClarify | GetSquad | FormulateResponse

  /** The fields of `AgentState`, as the checkpoint stores them. */
  datatype Values = Values(
    userQuery: string,
    teamName: Option<string>,
    squad: Option<Squad>,
    answer: Option<string>,
    clarificationRequest: Option<string>,
    clarificationResponse: Option<string>,
    teamFound: bool,
    valid: bool,
    success: bool)

  /** `AgentState(user_query=message)`: every other field at its default. */
  function Fresh(query: string): Values
  {
    Values(query, None, None, None, None, None, false, false, false)
  }

  /** Python truthiness of an optional text: set and not empty. */
  predicate Truthy(s: Option<string>)
  {
    s.Some? && s.value != ""
  }

  /** What a node can raise: the handlers' own `ValueError`s, or whatever the
      roster provider raised. */
  datatype AgentError = ValueError(message: string) | RosterError(cause: RosterApi.ApiError)

  /** The collaborators of one message: the language model, the roster
      provider, and today's date in ISO form (`date.today()`). */
  datatype Env = Env(model: Llm.Model, squadApi: Roster.SquadApi, today: string)

  function Teams(env: Env): seq<string>
  {
    env.squadApi.teams
  }

  /** `cast(str, response.content).strip().lower()`. */
  function Normalise(reply: string): string
  {
    Lower(Strip(reply))
  }

  // ---------------------------------------------------------------------
  // The node handlers, on values

  /** `_validate_query`: the query is accepted exactly when the classifier's
      reply, lower-cased, contains "yes"; a refused query gets the fixed
      rejection as its answer. Nothing else changes. */
  function ValidateStep(model: Llm.Model, v: Values): (w: Values)
    ensures w.valid <==> Contains(Lower(model(Llm.ValidateQuery(v.userQuery))), "yes")
    ensures w.answer == if w.valid then v.answer else Some(Rejection)
    ensures w.(valid := v.valid, answer := v.answer) == v
  {
    if Contains(Lower(model(Llm.ValidateQuery(v.userQuery))), "yes") then v.(valid := true)
    else v.(valid := false, answer := Some(Rejection))
  }

  /** `_extract_team`: the normalised reply becomes the team name, and the
      team counts as found exactly when the provider lists that name. */
  function ExtractTeamStep(model: Llm.Model, teams: seq<string>, v: Values): (w: Values)
    ensures w.teamName == Some(Normalise(model(Llm.ExtractTeam(v.userQuery))))
    ensures w.teamFound <==> w.teamName.value in teams
    ensures w.(teamName := v.teamName, teamFound := v.teamFound) == v
  {
    var teamName := Normalise(model(Llm.ExtractTeam(v.userQuery)));
    v.(teamName := Some(teamName), teamFound := teamName in teams)
  }

  /** `_ask_for_clarification`: the model's question, asked with the full
      team list and the original query, becomes the clarification request. */
  function ClarifyStep(model: Llm.Model, teams: seq<string>, v: Values): (w: Values)
    ensures w.clarificationRequest == Some(model(Llm.ClarifyTeamName(teams, v.userQuery)))
    ensures w.(clarificationRequest := v.clarificationRequest) == v
  {
    v.(clarificationRequest := Some(model(Llm.ClarifyTeamName(teams, v.userQuery))))
  }

  /** `_handle_user_clarification`: the model reads the request and the
      user's reply; its normalised answer becomes the team name, found exactly
      when listed. An unresolved name ends the conversation with the fixed
      apology and `success` false. */
  function UserClarifyStep(model: Llm.Model, teams: seq<string>, v: Values): (w: Values)
    ensures w.teamName == Some(Normalise(model(Llm.InterpretClarification(v.clarificationRequest, v.clarificationResponse))))
    ensures w.teamFound <==> w.teamName.value in teams
    ensures !w.teamFound ==> w.answer == Some(TeamNotResolved) && !w.success
    ensures w.teamFound ==> w.answer == v.answer && w.success == v.success
    ensures w.(teamName := v.teamName, teamFound := v.teamFound, answer := v.answer, success := v.success) == v
  {
    var teamName := Normalise(model(Llm.InterpretClarification(v.clarificationRequest, v.clarificationResponse)));
    var w := v.(teamName := Some(teamName), teamFound := teamName in teams);
    if !w.teamFound then w.(answer := Some(TeamNotResolved), success := false) else w
  }

  /** `_search_squad`: an unset or empty team name raises `ValueError`; a
      provider error propagates; otherwise the squad is stored. */
  function GetSquadStep(squadApi: Roster.SquadApi, v: Values): (r: Result<Values, AgentError>)
    ensures !Truthy(v.teamName) ==> r == Failure(ValueError(TeamNameNotSet))
    ensures Truthy(v.teamName) ==>
      var looked := squadApi.getTeamSquad(v.teamName.value);
      && (r.Success? <==> looked.Success?)
      && (r.Success? ==> r.value == v.(squad := Some(looked.value)))
      && (r.Failure? ==> r.error == RosterError(looked.error))
  {
    if !Truthy(v.teamName) then Failure(ValueError(TeamNameNotSet))
    else
      match squadApi.getTeamSquad(v.teamName.value)
      case Failure(e) => Failure(RosterError(e))
      case Success(squad) => Success(v.(squad := Some(squad)))
  }

  /** `_formulate_response`: without a squad it raises `ValueError`; with
      one, the model's reply to the answer prompt becomes the answer and
      `success` is set. */
  function FormulateResponseStep(model: Llm.Model, today: string, v: Values): (r: Result<Values, AgentError>)
    ensures r.Failure? <==> v.squad.None?
    ensures r.Failure? ==> r.error == ValueError(SquadNotSet)
    ensures r.Success? ==>
      var prompt := Llm.FormulateAnswer(FormulateAnswer.SquadMarkdown(v.squad.value), v.userQuery, today);
      r.value == v.(answer := Some(model(prompt)), success := true)
  {
    match v.squad
    case None => Failure(ValueError(SquadNotSet))
    case Some(squad) =>
      var prompt := Llm.FormulateAnswer(FormulateAnswer.SquadMarkdown(squad), v.userQuery, today);
      Success(v.(answer := Some(model(prompt)), success := true))
  }

  /** The handler registered for each node. */
  function Step(env: Env, n: Node, v: Values): Result<Values, AgentError>
  {
    match n
    case Validate => Success(ValidateStep(env.model, v))
    case ExtractTeam => Success(ExtractTeamStep(env.model, Teams(env), v))
    case Clarify => Success(ClarifyStep(env.model, Teams(env), v))
    case UserClarify => Success(UserClarifyStep(env.model, Teams(env), v))
    case GetSquad => GetSquadStep(env.squadApi, v)
    case FormulateResponse => FormulateResponseStep(env.model, env.today, v)
  }

  // ---------------------------------------------------------------------
  // The wiring

  /** The edges added in the constructor, conditional or not. */
  function Successors(n: Node): set<Node>
  {
    match n
    case Validate => {ExtractTeam}
    case ExtractTeam => {GetSquad, Clarify}
    case Clarify => {UserClarify}
    case UserClarify => {GetSquad}
    case GetSquad => {FormulateResponse}
    case FormulateResponse => {}
  }

  /** Nodes from which the graph may end. */
  predicate MayFinish(n: Node)
  {
    n == Validate || n == UserClarify || n == FormulateResponse
  }

  /** Position of a node along every path; edges only go down. */
  function Rank(n: Node): nat
  {
    match n
    case Validate => 5
    case ExtractTeam => 4
    case Clarify => 3
    case UserClarify => 2
    case GetSquad => 1
    case FormulateResponse => 0
  }

  /** The edge taken after node `n` left the values `w`; `None` is END. The
      edge is always one of the wired ones, and leads further down. */
  function Route(n: Node, w: Values): (next: Option<Node>)
    ensures next.Some? ==> next.value in Successors(n) && Rank(next.value) < Rank(n)
    ensures next.None? ==> MayFinish(n)
  {
    match n
    case Validate => if w.valid then Some(ExtractTeam) else None
    case ExtractTeam => if w.teamFound then Some(GetSquad) else Some(Clarify)
    case Clarify => Some(UserClarify)
    case UserClarify => if w.teamFound then Some(GetSquad) else None
    case GetSquad => Some(FormulateResponse)
    case FormulateResponse => None
  }

  /** The routing conditions, read per node. */
  lemma RoutingRules(w: Values)
    ensures Route(Validate, w) == Some(ExtractTeam) <==> w.valid
    ensures Route(Validate, w).None? <==> !w.valid
    ensures Route(ExtractTeam, w) == (if w.teamFound then Some(GetSquad) else Some(Clarify))
    ensures Route(UserClarify, w) == Some(GetSquad) <==> w.teamFound
    ensures Route(UserClarify, w).None? <==> !w.teamFound
    ensures Route(Clarify, w) == Some(UserClarify)
    ensures Route(GetSquad, w) == Some(FormulateResponse)
    ensures Route(FormulateResponse, w).None?
  {
  }

  // ---------------------------------------------------------------------
  // The runtime

  /** A stored checkpoint: the committed values and the node to run next
      (`None` once the graph reached END). */
  datatype Checkpoint = Checkpoint(values: Values, next: Option<Node>)

  datatype Status = Paused | Finished | Failed(error: AgentError)

  /** How a run ended, the checkpoint it left, and the nodes that ran to
      completion, in order. */
  datatype Run = Run(checkpoint: Checkpoint, status: Status, trace: seq<Node>)

  /** One run of the compiled graph from node `cur`: it stops before
      `UserClarify` unless `resuming` (the interrupt only holds back the
      run that reaches it), stops where a handler raises, leaving the last
      committed values with the failed node pending, and otherwise follows
      the routes until END. */
  function Execute(env: Env, v: Values, cur: Node, resuming: bool): (r: Run)
    decreases Rank(cur)
  {
    if cur == UserClarify && !resuming then Run(Checkpoint(v, Some(UserClarify)), Paused, [])
    else
      match Step(env, cur, v)
      case Failure(e) => Run(Checkpoint(v, Some(cur)), Failed(e), [])
      case Success(w) =>
        match Route(cur, w)
        case None => Run(Checkpoint(w, None), Finished, [cur])
        case Some(next) =>
          var rest := Execute(env, w, next, false);
          rest.(trace := [cur] + rest.trace)
  }

  /** Each node of `t` is followed by one of its successors. */
  predicate Follows(t: seq<Node>)
  {
    forall i :: 0 <= i < |t| - 1 ==> t[i + 1] in Successors(t[i])
  }

  function Last(t: seq<Node>): Node
    requires t != []
  {
    t[|t| - 1]
  }

  /** `pending` is the node a run from `start` would take next after the
      nodes `t`: the start node itself when none ran. */
  predicate PendingAfter(start: Node, t: seq<Node>, pending: Node)
  {
    if t == [] then pending == start else pending in Successors(Last(t))
  }

  lemma FollowsCons(n: Node, t: seq<Node>)
    requires Follows(t) && (t != [] ==> t[0] in Successors(n))
    ensures Follows([n] + t)
  {
    forall i | 0 <= i < |t|
      ensures ([n] + t)[i + 1] in Successors(([n] + t)[i])
    {
      if i > 0 {
        assert ([n] + t)[i] == t[i - 1];
      }
    }
  }

  /** The nodes of a run follow the wiring: they start at the node the run
      was started from, and each is followed by one of its successors. */
  lemma {:induction false} ExecuteFollowsWiring(env: Env, v: Values, cur: Node, resuming: bool)
    ensures var r := Execute(env, v, cur, resuming);
      (r.trace != [] ==> r.trace[0] == cur) && Follows(r.trace)
    decreases Rank(cur)
  {
    if !(cur == UserClarify && !resuming) {
      match Step(env, cur, v)
      case Failure(_) =>
      case Success(w) =>
        match Route(cur, w)
        case None =>
        case Some(next) =>
          var rest := Execute(env, w, next, false);
          ExecuteFollowsWiring(env, w, next, false);
          assert Execute(env, v, cur, resuming).trace == [cur] + rest.trace;
          FollowsCons(cur, rest.trace);
    }
  }

  /** A finished run ends at a node the graph may end after; an unfinished
      one leaves pending the next node along the wiring, which for a paused
      run is `UserClarify`. */
  lemma {:induction false} ExecuteEnds(env: Env, v: Values, cur: Node, resuming: bool)
    ensures var r := Execute(env, v, cur, resuming);
      && (r.status.Finished? ==> r.trace != [] && MayFinish(Last(r.trace)))
      && (!r.status.Finished? ==> r.checkpoint.next.Some? && PendingAfter(cur, r.trace, r.checkpoint.next.value))
      && (r.status.Paused? ==> r.checkpoint.next == Some(UserClarify))
    decreases Rank(cur)
  {
    if !(cur == UserClarify && !resuming) {
      match Step(env, cur, v)
      case Failure(_) =>
      case Success(w) =>
        match Route(cur, w)
        case None =>
        case Some(next) =>
          var rest := Execute(env, w, next, false);
          ExecuteEnds(env, w, next, false);
          var r := Execute(env, v, cur, resuming);
          assert r == rest.(trace := [cur] + rest.trace);
          if rest.trace != [] {
            assert Last(r.trace) == Last(rest.trace);
          }
    }
  }

  // ---------------------------------------------------------------------
  // Invariants of stored checkpoints

  /** The record invariants: a found team is a listed team, and success comes
      with a squad and an answer. */
  predicate Consistent(teams: seq<string>, v: Values)
  {
    && (v.teamFound ==> v.teamName.Some? && v.teamName.value in teams)
    && (v.success ==> v.squad.Some? && v.answer.Some?)
  }

  /** What holds of the values whenever node `n` is the one to run next: no
      answer yet, no clarification reply before the question is asked, a
      question before it is interpreted, a found team before the squad is
      fetched and a squad before the answer is formulated. */
  predicate ReadyFor(n: Node, v: Values)
  {
    && v.answer.None?
    && (match n
        case Validate => v.clarificationResponse.None?
        case ExtractTeam => v.clarificationResponse.None?
        case Clarify => v.clarificationResponse.None?
        case UserClarify => v.clarificationRequest.Some?
        case GetSquad => v.teamFound
        case FormulateResponse => v.squad.Some?)
  }

  /** A stored checkpoint of a session: consistent values; an answer exactly
      when the graph has ended; a paused session holds the clarification
      request and no reply to it; and only `UserClarify` (the pause) or a
      node that can raise is ever pending. */
  predicate SessionOk(teams: seq<string>, cp: Checkpoint)
  {
    && Consistent(teams, cp.values)
    && (cp.next.None? <==> cp.values.answer.Some?)
    && (cp.next.Some? ==> ReadyFor(cp.next.value, cp.values))
    && (cp.next == Some(UserClarify) ==> cp.values.clarificationResponse.None?)
    && (cp.next.Some? ==> cp.next.value in {UserClarify, GetSquad, FormulateResponse})
  }

  lemma FreshIsReady(query: string, teams: seq<string>)
    ensures Consistent(teams, Fresh(query)) && ReadyFor(Validate, Fresh(query))
  {
  }

  /** A node that completes keeps the record invariants, and hands the next
      node values it is ready for, or ends the graph with an answer. */
  lemma StepAdvances(env: Env, n: Node, v: Values)
    requires Consistent(Teams(env), v) && ReadyFor(n, v)
    requires Step(env, n, v).Success?
    ensures var w := Step(env, n, v).value;
      && Consistent(Teams(env), w)
      && (Route(n, w).None? ==> w.answer.Some?)
      && (Route(n, w).Some? ==> ReadyFor(Route(n, w).value, w))
      && (n != UserClarify ==> w.clarificationResponse == v.clarificationResponse)
  {
  }

  /** A run started on ready values leaves a checkpoint a session may hold:
      paused exactly when it stops before `UserClarify`, finished exactly
      when the graph ended; only the pause and the two nodes that can raise
      are ever left pending. */
  lemma {:induction false} ExecuteKeepsSession(env: Env, v: Values, cur: Node, resuming: bool)
    requires Consistent(Teams(env), v) && ReadyFor(cur, v)
    requires cur == UserClarify && !resuming ==> v.clarificationResponse.None?
    ensures var r := Execute(env, v, cur, resuming);
      && SessionOk(Teams(env), r.checkpoint)
      && (r.status.Paused? <==> r.checkpoint.next == Some(UserClarify))
      && (r.status.Finished? <==> r.checkpoint.next.None?)
      && (r.status.Paused? ==> Rank(cur) > Rank(UserClarify) || (cur == UserClarify && !resuming))
      && (v.clarificationRequest.None? && r.status.Finished? ==> r.checkpoint.values.clarificationRequest.None?)
    decreases Rank(cur)
  {
    if !(cur == UserClarify && !resuming) {
      match Step(env, cur, v)
      case Failure(_) =>
        assert cur == GetSquad || cur == FormulateResponse;
      case Success(w) =>
        StepAdvances(env, cur, v);
        match Route(cur, w)
        case None =>
        case Some(next) =>
          ExecuteKeepsSession(env, w, next, false);
    }
  }

  /** Under the invariants a run raises only for provider failures other than
      an unknown team, and, should the provider list the empty name, for the
      empty-team-name check. */
  lemma {:induction false} ExecuteFailures(env: Env, v: Values, cur: Node, resuming: bool)
    requires Roster.Honours(env.squadApi)
    requires Consistent(Teams(env), v) && ReadyFor(cur, v)
    requires Execute(env, v, cur, resuming).status.Failed?
    ensures var e := Execute(env, v, cur, resuming).status.error;
      || (e.RosterError? && !e.cause.TeamNotFound?)
      || (e == ValueError(TeamNameNotSet) && "" in Teams(env))
    decreases Rank(cur)
  {
    if !(cur == UserClarify && !resuming) {
      match Step(env, cur, v)
      case Failure(_) =>
        if cur == GetSquad && Truthy(v.teamName) {
          var t := v.teamName.value;
          assert (env.squadApi.getTeamSquad(t).Failure? && env.squadApi.getTeamSquad(t).error.TeamNotFound?) <==> t !in Teams(env);
        }
      case Success(w) =>
        StepAdvances(env, cur, v);
        match Route(cur, w)
        case None =>
        case Some(next) =>
          ExecuteFailures(env, w, next, false);
    }
  }

  // ---------------------------------------------------------------------
  // `send_message`

  /** The checkpoint stored for a thread, if any. */
  function Stored(checkpoints: map<string, Checkpoint>, threadId: string): Option<Checkpoint>
  {
    if threadId in checkpoints then Some(checkpoints[threadId]) else None
  }

  /** The resume test of `send_message`, with `not answer` read as "no
      answer is set": a stored session without an answer whose clarification
      request is a non-empty text. */
  predicate ClarificationNeeded(stored: Option<Checkpoint>)
  {
    stored.Some? && stored.value.values.answer.None? && Truthy(stored.value.values.clarificationRequest)
  }

  /** The resume test exactly as written: `not answer` also holds for an
      answer that is the empty text. */
  predicate ClarificationNeededAsWritten(stored: Option<Checkpoint>)
  {
    stored.Some? && !Truthy(stored.value.values.answer) && Truthy(stored.value.values.clarificationRequest)
  }

  /** `update_state` with the user's reply, then `ainvoke(Command(resume=...))`:
      the run continues at the pending node, past the interrupt. A session
      with nothing pending does not run at all. */
  function Resume(env: Env, cp: Checkpoint, message: string): Run
  {
    var updated := cp.values.(clarificationResponse := Some(message));
    if cp.next.None? then Run(Checkpoint(updated, None), Finished, [])
    else Execute(env, updated, cp.next.value, true)
  }

  /** The outcome of one message: the checkpoint left for the thread, the
      reply (a raised error, or the text returned, which `cast` lets be
      `None`), whether the message resumed the session, and the nodes run. */
  datatype Exchange = Exchange(checkpoint: Checkpoint, reply: Result<Option<string>, AgentError>, resumed: bool, trace: seq<Node>)

  /** `send_message` once the resume test has been evaluated to `resume`. A
      resumed run replies with its answer; a fresh run replies with the
      clarification request when that is a non-empty text, and with the
      answer otherwise. */
  function Deliver(env: Env, stored: Option<Checkpoint>, message: string, resume: bool): Exchange
  {
    if resume && stored.Some? then
      var run := Resume(env, stored.value, message);
      var reply := if run.status.Failed? then Failure(run.status.error) else Success(run.checkpoint.values.answer);
      Exchange(run.checkpoint, reply, true, run.trace)
    else
      var run := Execute(env, Fresh(message), Validate, false);
      var values := run.checkpoint.values;
      var reply :=
        if run.status.Failed? then Failure(run.status.error)
        else if Truthy(values.clarificationRequest) then Success(values.clarificationRequest)
        else Success(values.answer);
      Exchange(run.checkpoint, reply, false, run.trace)
  }

  /** `send_message` with the corrected resume test. */
  function Respond(env: Env, stored: Option<Checkpoint>, message: string): Exchange
  {
    Deliver(env, stored, message, ClarificationNeeded(stored))
  }

  /** `send_message` with the resume test as written. */
  function RespondAsWritten(env: Env, stored: Option<Checkpoint>, message: string): Exchange
  {
    Deliver(env, stored, message, ClarificationNeededAsWritten(stored))
  }

  /** A session that passes the resume test has a node pending, and the
      values with the user's reply written in are ready for it. */
  lemma ResumeIsReady(teams: seq<string>, cp: Checkpoint, message: string)
    requires SessionOk(teams, cp) && ClarificationNeeded(Some(cp))
    ensures cp.next.Some?
    ensures var updated := cp.values.(clarificationResponse := Some(message));
            Consistent(teams, updated) && ReadyFor(cp.next.value, updated)
  {
  }

  /** Every message leaves the thread with a checkpoint a session may hold,
      starting from no checkpoint or from one, under the resume test as
      written and under the corrected one. */
  lemma RespondKeepsSession(env: Env, stored: Option<Checkpoint>, message: string)
    requires stored.Some? ==> SessionOk(Teams(env), stored.value)
    ensures SessionOk(Teams(env), RespondAsWritten(env, stored, message).checkpoint)
    ensures SessionOk(Teams(env), Respond(env, stored, message).checkpoint)
  {
    if ClarificationNeeded(stored) {
      var cp := stored.value;
      var updated := cp.values.(clarificationResponse := Some(message));
      var n := cp.next.value;
      ResumeIsReady(Teams(env), cp, message);
      ExecuteKeepsSession(env, updated, n, true);
    }
    ExecuteKeepsSession(env, Fresh(message), Validate, false);
  }

  /** On a session checkpoint the resume test is passed exactly by a graph
      with a node pending and a non-empty clarification request, in
      particular never by a finished one. */
  lemma ResumeTest(teams: seq<string>, cp: Checkpoint)
    requires SessionOk(teams, cp)
    ensures ClarificationNeeded(Some(cp)) <==> cp.next.Some? && Truthy(cp.values.clarificationRequest)
    ensures cp.next.None? ==> !ClarificationNeeded(Some(cp))
    ensures cp.next == Some(UserClarify) && Truthy(cp.values.clarificationRequest) ==> ClarificationNeeded(Some(cp))
  {
  }

  /** A thread without a checkpoint always starts fresh at `Validate`, and
      so does a thread whose checkpoint has no clarification request. */
  lemma FreshWhenNoRequest(env: Env, stored: Option<Checkpoint>, message: string)
    requires stored.None? || !Truthy(stored.value.values.clarificationRequest)
    ensures !RespondAsWritten(env, stored, message).resumed
    ensures RespondAsWritten(env, stored, message) == Deliver(env, None, message, false)
    ensures Respond(env, stored, message) == Deliver(env, None, message, false)
  {
  }

  /** Any message to a session raises only for provider failures other than
      an unknown team (or the empty-name check, for a provider listing the
      empty name): the unknown-team error is never reached. This holds
      under both resume tests. */
  lemma RespondFailures(env: Env, stored: Option<Checkpoint>, message: string)
    requires Roster.Honours(env.squadApi)
    requires stored.Some? ==> SessionOk(Teams(env), stored.value)
    ensures var r := RespondAsWritten(env, stored, message).reply;
      r.Failure? ==>
        || (r.error.RosterError? && !r.error.cause.TeamNotFound?)
        || (r.error == ValueError(TeamNameNotSet) && "" in Teams(env))
    ensures var r := Respond(env, stored, message).reply;
      r.Failure? ==>
        || (r.error.RosterError? && !r.error.cause.TeamNotFound?)
        || (r.error == ValueError(TeamNameNotSet) && "" in Teams(env))
  {
    if ClarificationNeeded(stored) {
      var cp := stored.value;
      var updated := cp.values.(clarificationResponse := Some(message));
      var n := cp.next.value;
      ResumeIsReady(Teams(env), cp, message);
      if Execute(env, updated, n, true).status.Failed? {
        ExecuteFailures(env, updated, n, true);
      }
    }
    if Execute(env, Fresh(message), Validate, false).status.Failed? {
      ExecuteFailures(env, Fresh(message), Validate, false);
    }
  }

  /** Every reply with which a session ends carries the answer; a paused
      session replies with its clarification request (or with nothing, when
      the model asked with the empty text). This holds under both resume
      tests. */
  lemma RepliesOfRuns(env: Env, stored: Option<Checkpoint>, message: string)
    requires stored.Some? ==> SessionOk(Teams(env), stored.value)
    ensures var x := RespondAsWritten(env, stored, message);
      && (x.checkpoint.next.None? ==> x.reply == Success(x.checkpoint.values.answer) && x.reply.value.Some?)
      && (x.checkpoint.next == Some(UserClarify) ==>
            x.reply == Success(if Truthy(x.checkpoint.values.clarificationRequest)
                               then x.checkpoint.values.clarificationRequest else None))
    ensures var x := Respond(env, stored, message);
      && (x.checkpoint.next.None? ==> x.reply == Success(x.checkpoint.values.answer) && x.reply.value.Some?)
      && (x.checkpoint.next == Some(UserClarify) ==>
            x.reply == Success(if Truthy(x.checkpoint.values.clarificationRequest)
                               then x.checkpoint.values.clarificationRequest else None))
  {
    RespondKeepsSession(env, stored, message);
    if ClarificationNeeded(stored) {
      var cp := stored.value;
      var updated := cp.values.(clarificationResponse := Some(message));
      var n := cp.next.value;
      ResumeIsReady(Teams(env), cp, message);
      ExecuteKeepsSession(env, updated, n, true);
    }
    ExecuteKeepsSession(env, Fresh(message), Validate, false);
  }

  // ---------------------------------------------------------------------
  // Conversations

  /** `GetSquad` on a name the provider resolves. */
  lemma GetSquadFound(env: Env, v: Values, squad: Squad)
    requires Truthy(v.teamName) && env.squadApi.getTeamSquad(v.teamName.value) == Success(squad)
    ensures Step(env, GetSquad, v) == Success(v.(squad := Some(squad)))
  {
  }

  /** Clarify always completes and the graph pauses before UserClarify. */
  lemma ClarifyPauses(env: Env, v: Values)
    ensures var w := ClarifyStep(env.model, Teams(env), v);
      Execute(env, v, Clarify, false) == Run(Checkpoint(w, Some(UserClarify)), Paused, [Clarify])
  {
    var w := ClarifyStep(env.model, Teams(env), v);
    assert Execute(env, w, UserClarify, false) == Run(Checkpoint(w, Some(UserClarify)), Paused, []);
    ExecuteOn(env, v, Clarify, false, w, UserClarify);
  }

  /** Validate that accepts and ExtractTeam that misses lead to Clarify and
      the pause before UserClarify. */
  lemma ClarifyChain(env: Env, v0: Values, v1: Values, v2: Values)
    requires Step(env, Validate, v0) == Success(v1) && Route(Validate, v1) == Some(ExtractTeam)
    requires Step(env, ExtractTeam, v1) == Success(v2) && Route(ExtractTeam, v2) == Some(Clarify)
    ensures Execute(env, v0, Validate, false)
      == Run(Checkpoint(ClarifyStep(env.model, Teams(env), v2), Some(UserClarify)), Paused, [Validate, ExtractTeam, Clarify])
  {
    var paused := Checkpoint(ClarifyStep(env.model, Teams(env), v2), Some(UserClarify));
    MissPauses(env, v1, v2);
    ExecuteThen(env, v0, Validate, false, v1, ExtractTeam, paused, Paused, [ExtractTeam, Clarify]);
    assert [Validate] + [ExtractTeam, Clarify] == [Validate, ExtractTeam, Clarify];
  }

  /** ExtractTeam that misses leads to Clarify and the pause before UserClarify. */
  lemma MissPauses(env: Env, v1: Values, v2: Values)
    requires Step(env, ExtractTeam, v1) == Success(v2) && Route(ExtractTeam, v2) == Some(Clarify)
    ensures Execute(env, v1, ExtractTeam, false)
      == Run(Checkpoint(ClarifyStep(env.model, Teams(env), v2), Some(UserClarify)), Paused, [ExtractTeam, Clarify])
  {
    ClarifyPauses(env, v2);
    ExecuteOn(env, v1, ExtractTeam, false, v2, Clarify);
    assert [ExtractTeam] + [Clarify] == [ExtractTeam, Clarify];
  }

  /** Validate on an accepted query hands over to ExtractTeam. */
  lemma ValidateAccepts(env: Env, v: Values)
    requires Contains(Lower(env.model(Llm.ValidateQuery(v.userQuery))), "yes")
    ensures Step(env, Validate, v) == Success(v.(valid := true))
    ensures Route(Validate, v.(valid := true)) == Some(ExtractTeam)
  {
  }

  /** ExtractTeam on a name the provider does not list hands over to Clarify. */
  lemma ExtractMisses(env: Env, v: Values)
    requires Normalise(env.model(Llm.ExtractTeam(v.userQuery))) !in Teams(env)
    ensures var w := v.(teamName := Some(Normalise(env.model(Llm.ExtractTeam(v.userQuery)))), teamFound := false);
      Step(env, ExtractTeam, v) == Success(w) && Route(ExtractTeam, w) == Some(Clarify)
  {
  }

  /** ExtractTeam on a listed name hands over to GetSquad. */
  lemma ExtractFinds(env: Env, v: Values)
    requires Normalise(env.model(Llm.ExtractTeam(v.userQuery))) in Teams(env)
    ensures var w := v.(teamName := Some(Normalise(env.model(Llm.ExtractTeam(v.userQuery)))), teamFound := true);
      Step(env, ExtractTeam, v) == Success(w) && Route(ExtractTeam, w) == Some(GetSquad)
  {
  }

  /** FormulateResponse on a state that holds a squad completes. */
  lemma FormulateFound(env: Env, v: Values)
    requires v.squad.Some?
    ensures FormulateResponseStep(env.model, env.today, v).Success?
    ensures Step(env, FormulateResponse, v) == FormulateResponseStep(env.model, env.today, v)
  {
  }

  /** One node that completes and routes on. */
  lemma ExecuteOn(env: Env, v: Values, cur: Node, resuming: bool, w: Values, next: Node)
    requires !(cur == UserClarify && !resuming)
    requires Step(env, cur, v) == Success(w) && Route(cur, w) == Some(next)
    ensures var rest := Execute(env, w, next, false);
            Execute(env, v, cur, resuming) == rest.(trace := [cur] + rest.trace)
  {
  }

  /** One node that completes in front of a known rest of the run. */
  lemma ExecuteThen(env: Env, v: Values, cur: Node, resuming: bool, w: Values, next: Node,
                    c: Checkpoint, o: Status, t: seq<Node>)
    requires !(cur == UserClarify && !resuming)
    requires Step(env, cur, v) == Success(w) && Route(cur, w) == Some(next)
    requires Execute(env, w, next, false) == Run(c, o, t)
    ensures Execute(env, v, cur, resuming) == Run(c, o, [cur] + t)
  {
  }

  /** One node that raises: the run stops with the values it started from. */
  lemma ExecuteRaises(env: Env, v: Values, cur: Node, resuming: bool, e: AgentError)
    requires !(cur == UserClarify && !resuming)
    requires Step(env, cur, v) == Failure(e)
    ensures Execute(env, v, cur, resuming) == Run(Checkpoint(v, Some(cur)), Failed(e), [])
  {
  }

  /** `whole` is the nodes `trace` already run followed by the run from `cur`
      on `current`. */
  ghost predicate Continues(env: Env, whole: Run, current: Values, cur: Node, resume: bool, trace: seq<Node>)
  {
    var rest := Execute(env, current, cur, resume);
    whole == rest.(trace := trace + rest.trace)
  }

  lemma ContinuesOn(env: Env, whole: Run, current: Values, cur: Node, resume: bool, trace: seq<Node>,
                    updated: Values, next: Node)
    requires Continues(env, whole, current, cur, resume, trace)
    requires !(cur == UserClarify && !resume)
    requires Step(env, cur, current) == Success(updated) && Route(cur, updated) == Some(next)
    ensures Continues(env, whole, updated, next, false, trace + [cur])
  {
    ExecuteOn(env, current, cur, resume, updated, next);
    var rest := Execute(env, updated, next, false);
    assert trace + ([cur] + rest.trace) == trace + [cur] + rest.trace;
  }

  lemma ContinuesStops(env: Env, whole: Run, current: Values, cur: Node, resume: bool, trace: seq<Node>,
                       last: Run)
    requires Continues(env, whole, current, cur, resume, trace)
    requires Execute(env, current, cur, resume) == last
    ensures whole == last.(trace := trace + last.trace)
  {
  }

  /** One node that completes and ends the graph. */
  lemma ExecuteDone(env: Env, v: Values, cur: Node, resuming: bool, w: Values)
    requires !(cur == UserClarify && !resuming)
    requires Step(env, cur, v) == Success(w) && Route(cur, w).None?
    ensures Execute(env, v, cur, resuming) == Run(Checkpoint(w, None), Finished, [cur])
  {
  }

  /** A query the classifier refuses: only `Validate` runs, and the reply
      is the fixed rejection. */
  lemma RejectedQuery(env: Env, stored: Option<Checkpoint>, message: string)
    requires !ClarificationNeededAsWritten(stored)
    requires !Contains(Lower(env.model(Llm.ValidateQuery(message))), "yes")
    ensures var x := RespondAsWritten(env, stored, message);
      && x.trace == [Validate] && x.reply == Success(Some(Rejection))
      && x.checkpoint.next.None? && !x.checkpoint.values.valid && !x.checkpoint.values.success
  {
  }

  /** From a found team on: the squad is fetched and the answer formulated. */
  lemma SquadThenAnswer(env: Env, v: Values, squad: Squad)
    requires Truthy(v.teamName) && env.squadApi.getTeamSquad(v.teamName.value) == Success(squad)
    ensures var w := FormulateResponseStep(env.model, env.today, v.(squad := Some(squad))).value;
            Execute(env, v, GetSquad, false) == Run(Checkpoint(w, None), Finished, [GetSquad, FormulateResponse])
  {
    var v1 := v.(squad := Some(squad));
    FormulateFound(env, v1);
    var w := FormulateResponseStep(env.model, env.today, v1).value;
    ExecuteDone(env, v1, FormulateResponse, false, w);
    GetSquadFound(env, v, squad);
    ExecuteThen(env, v, GetSquad, false, v1, FormulateResponse, Checkpoint(w, None), Finished, [FormulateResponse]);
    assert [GetSquad] + [FormulateResponse] == [GetSquad, FormulateResponse];
  }

  /** Validate that accepts and ExtractTeam that finds the team lead to the
      squad and the answer. */
  lemma FoundChain(env: Env, v0: Values, v1: Values, v2: Values, squad: Squad)
    requires Step(env, Validate, v0) == Success(v1) && Route(Validate, v1) == Some(ExtractTeam)
    requires Step(env, ExtractTeam, v1) == Success(v2) && Route(ExtractTeam, v2) == Some(GetSquad)
    requires Truthy(v2.teamName) && env.squadApi.getTeamSquad(v2.teamName.value) == Success(squad)
    ensures var w := FormulateResponseStep(env.model, env.today, v2.(squad := Some(squad))).value;
            Execute(env, v0, Validate, false)
            == Run(Checkpoint(w, None), Finished, [Validate, ExtractTeam, GetSquad, FormulateResponse])
  {
    var done := Checkpoint(FormulateResponseStep(env.model, env.today, v2.(squad := Some(squad))).value, None);
    SquadThenAnswer(env, v2, squad);
    ExecuteThen(env, v1, ExtractTeam, false, v2, GetSquad, done, Finished, [GetSquad, FormulateResponse]);
    assert [ExtractTeam] + [GetSquad, FormulateResponse] == [ExtractTeam, GetSquad, FormulateResponse];
    ExecuteThen(env, v0, Validate, false, v1, ExtractTeam, done, Finished, [ExtractTeam, GetSquad, FormulateResponse]);
    assert [Validate] + [ExtractTeam, GetSquad, FormulateResponse]
      == [Validate, ExtractTeam, GetSquad, FormulateResponse];
  }

  /** The run behind `DirectAnswer`. */
  lemma DirectRun(env: Env, message: string, squad: Squad)
    requires Contains(Lower(env.model(Llm.ValidateQuery(message))), "yes")
    requires var t := Normalise(env.model(Llm.ExtractTeam(message)));
             t in Teams(env) && t != "" && env.squadApi.getTeamSquad(t) == Success(squad)
    ensures var v2 := Fresh(message).(valid := true,
                teamName := Some(Normalise(env.model(Llm.ExtractTeam(message)))), teamFound := true);
            var v4 := FormulateResponseStep(env.model, env.today, v2.(squad := Some(squad))).value;
            Execute(env, Fresh(message), Validate, false)
            == Run(Checkpoint(v4, None), Finished, [Validate, ExtractTeam, GetSquad, FormulateResponse])
  {
    var v1 := Fresh(message).(valid := true);
    ValidateAccepts(env, Fresh(message));
    var v2 := v1.(teamName := Some(Normalise(env.model(Llm.ExtractTeam(message)))), teamFound := true);
    ExtractFinds(env, v1);
    FoundChain(env, Fresh(message), v1, v2, squad);
  }

  /** A query naming a listed team: the squad is fetched and the model's
      answer is the reply. */
  lemma DirectAnswer(env: Env, stored: Option<Checkpoint>, message: string, squad: Squad)
    requires !ClarificationNeededAsWritten(stored)
    requires Contains(Lower(env.model(Llm.ValidateQuery(message))), "yes")
    requires var t := Normalise(env.model(Llm.ExtractTeam(message)));
             t in Teams(env) && t != "" && env.squadApi.getTeamSquad(t) == Success(squad)
    ensures var x := RespondAsWritten(env, stored, message);
      var answer := env.model(Llm.FormulateAnswer(FormulateAnswer.SquadMarkdown(squad), message, env.today));
      && x.trace == [Validate, ExtractTeam, GetSquad, FormulateResponse]
      && x.reply == Success(Some(answer))
      && x.checkpoint.next.None? && x.checkpoint.values.success && x.checkpoint.values.squad == Some(squad)
  {
    DirectRun(env, message, squad);
  }

  /** The run behind `AsksForClarification`. */
  lemma ClarifyRun(env: Env, message: string)
    requires Contains(Lower(env.model(Llm.ValidateQuery(message))), "yes")
    requires Normalise(env.model(Llm.ExtractTeam(message))) !in Teams(env)
    ensures var v := Fresh(message).(valid := true,
        teamName := Some(Normalise(env.model(Llm.ExtractTeam(message)))),
        clarificationRequest := Some(env.model(Llm.ClarifyTeamName(Teams(env), message))));
      Execute(env, Fresh(message), Validate, false)
      == Run(Checkpoint(v, Some(UserClarify)), Paused, [Validate, ExtractTeam, Clarify])
  {
    var v1 := Fresh(message).(valid := true);
    ValidateAccepts(env, Fresh(message));
    var v2 := v1.(teamName := Some(Normalise(env.model(Llm.ExtractTeam(message)))), teamFound := false);
    ExtractMisses(env, v1);
    ClarifyChain(env, Fresh(message), v1, v2);
  }

  /** A query whose team is not listed: the model's clarification question is
      stored, the run pauses before `UserClarify`, and the question is the
      reply. */
  lemma AsksForClarification(env: Env, stored: Option<Checkpoint>, message: string)
    requires !ClarificationNeededAsWritten(stored)
    requires Contains(Lower(env.model(Llm.ValidateQuery(message))), "yes")
    requires Normalise(env.model(Llm.ExtractTeam(message))) !in Teams(env)
    ensures var x := RespondAsWritten(env, stored, message);
      var request := env.model(Llm.ClarifyTeamName(Teams(env), message));
      && x.trace == [Validate, ExtractTeam, Clarify]
      && x.checkpoint.next == Some(UserClarify)
      && x.checkpoint.values.clarificationRequest == Some(request)
      && x.checkpoint.values.answer.None?
      && x.reply == Success(if request != "" then Some(request) else None)
  {
    ClarifyRun(env, message);
    assert RespondAsWritten(env, stored, message) == Deliver(env, stored, message, false);
  }

  /** The reply to a pending clarification that resolves to a listed team:
      the session resumes at `UserClarify` and goes on to the answer. */
  lemma ClarificationResolved(env: Env, cp: Checkpoint, message: string, squad: Squad)
    requires SessionOk(Teams(env), cp) && cp.next == Some(UserClarify) && Truthy(cp.values.clarificationRequest)
    requires var t := Normalise(env.model(Llm.InterpretClarification(cp.values.clarificationRequest, Some(message))));
             t in Teams(env) && t != "" && env.squadApi.getTeamSquad(t) == Success(squad)
    ensures var x := RespondAsWritten(env, Some(cp), message);
      var answer := env.model(Llm.FormulateAnswer(FormulateAnswer.SquadMarkdown(squad), cp.values.userQuery, env.today));
      && x.resumed
      && x.trace == [UserClarify, GetSquad, FormulateResponse]
      && x.reply == Success(Some(answer))
      && x.checkpoint.next.None? && x.checkpoint.values.success
      && x.checkpoint.values.clarificationResponse == Some(message)
      && x.checkpoint.values.clarificationRequest == cp.values.clarificationRequest
  {
    var updated := cp.values.(clarificationResponse := Some(message));
    ResolvedRun(env, updated, squad);
    assert ClarificationNeededAsWritten(Some(cp));
    assert RespondAsWritten(env, Some(cp), message) == Deliver(env, Some(cp), message, true);
  }

  /** The run behind `ClarificationResolved`. */
  lemma ResolvedRun(env: Env, updated: Values, squad: Squad)
    requires var t := Normalise(env.model(Llm.InterpretClarification(updated.clarificationRequest, updated.clarificationResponse)));
             t in Teams(env) && t != "" && env.squadApi.getTeamSquad(t) == Success(squad)
    ensures var v1 := UserClarifyStep(env.model, Teams(env), updated);
            var w := FormulateResponseStep(env.model, env.today, v1.(squad := Some(squad))).value;
            Execute(env, updated, UserClarify, true)
            == Run(Checkpoint(w, None), Finished, [UserClarify, GetSquad, FormulateResponse])
  {
    var v1 := UserClarifyStep(env.model, Teams(env), updated);
    assert v1.teamName == Some(Normalise(env.model(Llm.InterpretClarification(updated.clarificationRequest, updated.clarificationResponse))));
    var done := Checkpoint(FormulateResponseStep(env.model, env.today, v1.(squad := Some(squad))).value, None);
    SquadThenAnswer(env, v1, squad);
    ExecuteThen(env, updated, UserClarify, true, v1, GetSquad, done, Finished, [GetSquad, FormulateResponse]);
    assert [UserClarify] + [GetSquad, FormulateResponse] == [UserClarify, GetSquad, FormulateResponse];
  }

  /** The reply to a pending clarification that resolves to no listed team:
      only `UserClarify` runs and the conversation ends with the apology. */
  lemma ClarificationUnresolved(env: Env, cp: Checkpoint, message: string)
    requires SessionOk(Teams(env), cp) && cp.next == Some(UserClarify) && Truthy(cp.values.clarificationRequest)
    requires Normalise(env.model(Llm.InterpretClarification(cp.values.clarificationRequest, Some(message)))) !in Teams(env)
    ensures var x := RespondAsWritten(env, Some(cp), message);
      && x.resumed && x.trace == [UserClarify]
      && x.reply == Success(Some(TeamNotResolved))
      && x.checkpoint.next.None? && !x.checkpoint.values.success && !x.checkpoint.values.teamFound
  {
  }

  // ---------------------------------------------------------------------
  // The resume test as written

  /** The two resume tests disagree exactly on a stored answer that is the
      empty text next to a non-empty clarification request. */
  lemma ResumeTestsDiffer(stored: Option<Checkpoint>)
    ensures ClarificationNeededAsWritten(stored) != ClarificationNeeded(stored) <==>
      stored.Some? && stored.value.values.answer == Some("") && Truthy(stored.value.values.clarificationRequest)
  {
  }

  /** As written, a finished session whose answer is the empty text and which
      holds a clarification request resumes on every later message: nothing
      runs, `Validate` in particular never again, the reply is the empty
      answer, and the session stays in that state. */
  lemma AsWrittenTrapsFinishedSession(env: Env, cp: Checkpoint, message: string)
    requires cp.next.None? && cp.values.answer == Some("") && Truthy(cp.values.clarificationRequest)
    ensures var x := RespondAsWritten(env, Some(cp), message);
      && x.resumed && x.trace == [] && x.reply == Success(Some(""))
      && x.checkpoint.next.None? && x.checkpoint.values.answer == Some("")
      && x.checkpoint.values.clarificationRequest == cp.values.clarificationRequest
  {
  }

  /** Such a session is reached by a clarified conversation whose answer
      prompt the model answers with empty content. The test as written then
      keeps it trapped, while the corrected test starts the next message
      fresh at `Validate`. */
  lemma EmptyAnswerAfterClarification(env: Env, cp: Checkpoint, reply: string, next: string, squad: Squad)
    requires SessionOk(Teams(env), cp) && cp.next == Some(UserClarify) && Truthy(cp.values.clarificationRequest)
    requires var t := Normalise(env.model(Llm.InterpretClarification(cp.values.clarificationRequest, Some(reply))));
             t in Teams(env) && t != "" && env.squadApi.getTeamSquad(t) == Success(squad)
    requires env.model(Llm.FormulateAnswer(FormulateAnswer.SquadMarkdown(squad), cp.values.userQuery, env.today)) == ""
    ensures var finished := RespondAsWritten(env, Some(cp), reply).checkpoint;
      && finished.next.None? && finished.values.answer == Some("")
      && RespondAsWritten(env, Some(finished), next).resumed
      && RespondAsWritten(env, Some(finished), next).trace == []
      && !Respond(env, Some(finished), next).resumed
      && Respond(env, Some(finished), next).trace != []
      && Respond(env, Some(finished), next).trace[0] == Validate
  {
    ClarificationResolved(env, cp, reply, squad);
    var finished := RespondAsWritten(env, Some(cp), reply).checkpoint;
    assert finished.next.None? && finished.values.answer == Some("");
    AsWrittenTrapsFinishedSession(env, finished, next);
    assert !ClarificationNeeded(Some(finished));
    assert Respond(env, Some(finished), next) == Deliver(env, Some(finished), next, false);
    FreshStartsAtValidate(env, next);
  }

  /** A fresh run always completes `Validate` first. */
  lemma FreshStartsAtValidate(env: Env, message: string)
    ensures var r := Execute(env, Fresh(message), Validate, false);
      r.trace != [] && r.trace[0] == Validate
  {
    var v1 := ValidateStep(env.model, Fresh(message));
    ExecuteFollowsWiring(env, Fresh(message), Validate, false);
    if v1.valid {
      ExecuteOn(env, Fresh(message), Validate, false, v1, ExtractTeam);
    } else {
      ExecuteDone(env, Fresh(message), Validate, false, v1);
    }
  }

  // ---------------------------------------------------------------------
  // The agent object

  /** The mutable `AgentState` record each handler receives and updates. */
  class AgentState {
    var userQuery: string
    var teamName: Option<string>
    var squad: Option<Squad>
    var answer: Option<string>
    var clarificationRequest: Option<string>
    var clarificationResponse: Option<string>
    var teamFound: bool
    var valid: bool
    var success: bool

    /** The state object the runtime builds from stored values. */
    constructor (v: Values)
      ensures Snapshot() == v
    {
      userQuery := v.userQuery;
      teamName := v.teamName;
      squad := v.squad;
      answer := v.answer;
      clarificationRequest := v.clarificationRequest;
      clarificationResponse := v.clarificationResponse;
      teamFound := v.teamFound;
      valid := v.valid;
      success := v.success;
    }

    /** The values the runtime reads back from the returned object. */
    function Snapshot(): Values
      reads this
    {
      Values(userQuery, teamName, squad, answer, clarificationRequest, clarificationResponse, teamFound, valid, success)
    }
  }

  /** `PremierLeagueAgent`: the model, the roster provider and the thread id
      are fixed at construction; the checkpoint store is the memory saver. */
  class PremierLeagueAgent {
    const model: Llm.Model
    const squadApi: Roster.SquadApi
    const threadId: string
    var checkpoints: map<string, Checkpoint>

    /** `__init__`, with the thread id supplied instead of drawn at random;
        the store starts empty. */
    constructor (model: Llm.Model, squadApi: Roster.SquadApi, threadId: string)
      ensures this.model == model && this.squadApi == squadApi && this.threadId == threadId
      ensures checkpoints == map[]
    {
      this.model := model;
      this.squadApi := squadApi;
      this.threadId := threadId;
      checkpoints := map[];
    }

    /** `_validate_query`. */
    method ValidateQuery(state: AgentState)
      modifies state
      ensures state.Snapshot() == ValidateStep(model, old(state.Snapshot()))
    {
      var query := state.userQuery;
      var response := model(Llm.ValidateQuery(query));
      if Contains(Lower(response), "yes") {
        state.valid := true;
      } else {
        state.valid := false;
        state.answer := Some(Rejection);
      }
    }

    /** `_extract_team`. */
    method ExtractTeam(state: AgentState)
      modifies state
      ensures state.Snapshot() == ExtractTeamStep(model, squadApi.teams, old(state.Snapshot()))
    {
      var query := state.userQuery;
      var response := model(Llm.ExtractTeam(query));
      var teamName := Lower(Strip(response));
      var isFound := teamName in squadApi.teams;
      state.teamName := Some(teamName);
      state.teamFound := isFound;
    }

    /** `_ask_for_clarification`. */
    method AskForClarification(state: AgentState)
      modifies state
      ensures state.Snapshot() == ClarifyStep(model, squadApi.teams, old(state.Snapshot()))
    {
      var clubs := squadApi.teams;
      var response := model(Llm.ClarifyTeamName(clubs, state.userQuery));
      state.clarificationRequest := Some(response);
    }

    /** `_handle_user_clarification`. */
    method HandleUserClarification(state: AgentState)
      modifies state
      ensures state.Snapshot() == UserClarifyStep(model, squadApi.teams, old(state.Snapshot()))
    {
      var response := model(Llm.InterpretClarification(state.clarificationRequest, state.clarificationResponse));
      state.teamName := Some(Lower(Strip(response)));
      state.teamFound := state.teamName.value in squadApi.teams;
      if !state.teamFound {
        state.answer := Some(TeamNotResolved);
        state.success := false;
      }
    }

    /** `_search_squad`: a raised error leaves the state untouched. */
    method SearchSquad(state: AgentState) returns (outcome: Outcome<AgentError>)
      modifies state
      ensures var r := GetSquadStep(squadApi, old(state.Snapshot()));
        && (outcome.Pass? <==> r.Success?)
        && (r.Success? ==> state.Snapshot() == r.value)
        && (r.Failure? ==> outcome == Fail(r.error) && state.Snapshot() == old(state.Snapshot()))
    {
      if state.teamName.None? || state.teamName.value == "" {
        return Fail(ValueError(TeamNameNotSet));
      }
      var squad := squadApi.getTeamSquad(state.teamName.value);
      if squad.Failure? {
        return Fail(RosterError(squad.error));
      }
      state.squad := Some(squad.value);
      outcome := Pass;
    }

    /** `_formulate_response`, with today's date passed in. */
    method FormulateResponse(state: AgentState, today: string) returns (outcome: Outcome<AgentError>)
      modifies state
      ensures var r := FormulateResponseStep(model, today, old(state.Snapshot()));
        && (outcome.Pass? <==> r.Success?)
        && (r.Success? ==> state.Snapshot() == r.value)
        && (r.Failure? ==> outcome == Fail(r.error) && state.Snapshot() == old(state.Snapshot()))
    {
      if state.squad.None? {
        return Fail(ValueError(SquadNotSet));
      }
      var prompt := Llm.FormulateAnswer(FormulateAnswer.SquadMarkdown(state.squad.value), state.userQuery, today);
      var response := model(prompt);
      state.answer := Some(response);
      state.success := true;
      outcome := Pass;
    }

    /** The runtime calling the handler registered for a node. */
    method RunNode(n: Node, state: AgentState, today: string) returns (outcome: Outcome<AgentError>)
      modifies state
      ensures var r := Step(Env(model, squadApi, today), n, old(state.Snapshot()));
        && (outcome.Pass? <==> r.Success?)
        && (r.Success? ==> state.Snapshot() == r.value)
        && (r.Failure? ==> outcome == Fail(r.error))
    {
      match n {
        case Validate => ValidateQuery(state); outcome := Pass;
        case ExtractTeam => ExtractTeam(state); outcome := Pass;
        case Clarify => AskForClarification(state); outcome := Pass;
        case UserClarify => HandleUserClarification(state); outcome := Pass;
        case GetSquad => outcome := SearchSquad(state);
        case FormulateResponse => outcome := FormulateResponse(state, today);
      }
    }

    /** One node on a fresh state object built from `values`, and the
        values read back from it. */
    method RunNodeOn(n: Node, values: Values, today: string) returns (outcome: Outcome<AgentError>, updated: Values)
      ensures var r := Step(Env(model, squadApi, today), n, values);
        && (outcome.Pass? <==> r.Success?)
        && (r.Success? ==> updated == r.value)
        && (r.Failure? ==> outcome == Fail(r.error))
    {
      var state := new AgentState(values);
      outcome := RunNode(n, state, today);
      updated := state.Snapshot();
    }

    /** The compiled graph run from node `node`: each node gets a fresh state
        object, and the loop stops at the interrupt, at a raised error or at
        END. */
    method RunGraph(values: Values, node: Node, resuming: bool, today: string) returns (run: Run)
      ensures run == Execute(Env(model, squadApi, today), values, node, resuming)
    {
      var env := Env(model, squadApi, today);
      ghost var whole := Execute(env, values, node, resuming);
      var current, cur, resume := values, node, resuming;
      var trace: seq<Node> := [];
      assert [] + whole.trace == whole.trace;
      while true
        invariant Continues(env, whole, current, cur, resume, trace)
        decreases Rank(cur)
      {
        if cur == UserClarify && !resume {
          ContinuesStops(env, whole, current, cur, resume, trace, Run(Checkpoint(current, Some(UserClarify)), Paused, []));
          assert trace + [] == trace;
          return Run(Checkpoint(current, Some(UserClarify)), Paused, trace);
        }
        var outcome, updated := RunNodeOn(cur, current, today);
        if outcome.Fail? {
          ExecuteRaises(env, current, cur, resume, outcome.error);
          ContinuesStops(env, whole, current, cur, resume, trace, Run(Checkpoint(current, Some(cur)), Failed(outcome.error), []));
          assert trace + [] == trace;
          return Run(Checkpoint(current, Some(cur)), Failed(outcome.error), trace);
        }
        var next := Route(cur, updated);
        if next.None? {
          ExecuteDone(env, current, cur, resume, updated);
          ContinuesStops(env, whole, current, cur, resume, trace, Run(Checkpoint(updated, None), Finished, [cur]));
          return Run(Checkpoint(updated, None), Finished, trace + [cur]);
        }
        ContinuesOn(env, whole, current, cur, resume, trace, updated, next.value);
        current, cur, resume, trace := updated, next.value, false, trace + [cur];
      }
    }

    /** `_invoke`: a fresh run from `Validate` on `AgentState(user_query=...)`,
        whose checkpoint replaces the thread's. */
    method Invoke(message: string, today: string) returns (run: Run)
      modifies this
      ensures run == Execute(Env(model, squadApi, today), Fresh(message), Validate, false)
      ensures checkpoints == old(checkpoints)[threadId := run.checkpoint]
    {
      run := RunGraph(Fresh(message), Validate, false, today);
      checkpoints := checkpoints[threadId := run.checkpoint];
    }

    /** `send_message`: resume a pending clarification or run fresh, leaving
        the thread's checkpoint and the reply that `RespondAsWritten`
        describes; the resume test reads `not answer` as the code does, so
        an empty answer counts as none. */
    method SendMessage(message: string, today: string) returns (reply: Result<Option<string>, AgentError>)
      modifies this
      ensures var x := RespondAsWritten(Env(model, squadApi, today), Stored(old(checkpoints), threadId), message);
        reply == x.reply && checkpoints == old(checkpoints)[threadId := x.checkpoint]
    {
      var stored := if threadId in checkpoints then Some(checkpoints[threadId]) else None;
      var clarificationNeeded := stored.Some?
        && (stored.value.values.answer.None? || stored.value.values.answer.value == "")
        && stored.value.values.clarificationRequest.Some? && stored.value.values.clarificationRequest.value != "";
      if clarificationNeeded {
        var cp := stored.value;
        var updated := Checkpoint(cp.values.(clarificationResponse := Some(message)), cp.next);
        checkpoints := checkpoints[threadId := updated];
        var run;
        if updated.next.None? {
          run := Run(updated, Finished, []);
        } else {
          run := RunGraph(updated.values, updated.next.value, true, today);
        }
        checkpoints := checkpoints[threadId := run.checkpoint];
        if run.status.Failed? {
          return Failure(run.status.error);
        }
        return Success(run.checkpoint.values.answer);
      }
      var result := Invoke(message, today);
      if result.status.Failed? {
        return Failure(result.status.error);
      }
      var values := result.checkpoint.values;
      if values.clarificationRequest.Some? && values.clarificationRequest.value != "" {
        return Success(values.clarificationRequest);
      }
      return Success(values.answer);
    }
  }
}
