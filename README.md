# PremierLeagueChat, modelled in Dafny

PremierLeagueChat answers questions about the squads of Premier League
clubs. A conversation runs through a graph of six nodes over one mutable
`AgentState` record:

- `Validate` asks the language model whether the query is about a squad.
- `ExtractTeam` asks for the team name and looks it up in the roster
  provider's list.
- `Clarify` asks the model for a question to put back to the user, and the
  graph pauses before `UserClarify`.
- `UserClarify` interprets the user's reply.
- `GetSquad` fetches the squad from the provider.
- `FormulateResponse` renders the squad as markdown and asks the model for
  the answer.

One checkpoint is kept per thread. For each incoming message,
`send_message` reads it and either resumes a paused clarification or starts
a fresh run from `Validate`.

This project models:

- that workflow: the node handlers, the wiring, the graph runtime's
  behaviour for this graph, the checkpoint store and `send_message`;
- the earlier prototype agent, which has no clarification round and no
  checkpoint and uses a three-team mock roster;
- the grouping of a squad's players by position;
- the markdown rendering of a squad;
- the two roster providers: the local JSON cache and the SportDB web API.

Modules, one per file:

| file | module | models |
|---|---|---|
| `wrappers.dfy` | `Wrappers` | `Option`, `Result`, `Outcome` (a value, or a raised exception) |
| `text.dfy` | `Text` | the Python `str` operations used: `lower`, `upper`, `strip`, `in`, `join`, `str(int)` |
| `assoc.dfy` | `Assoc` | insertion-ordered dicts as association lists: `keys()`, `get` |
| `squad.dfy` | `Squads` | `PlayersGroup`, the position table, `Player`, `Squad`, `get_player_group` |
| `formulate_answer.dfy` | `FormulateAnswer` | the markdown part of `build_formulate_answer_prompt` |
| `llm.dfy` | `Llm` | the language model as an oracle from a prompt to the reply's text |
| `roster_api.dfy` | `RosterApi` | the provider exceptions, the date parser, the in-order record conversion |
| `roster_local.dfy` | `LocalRoster` | `LocalPremierLeagueApi.get_teams` / `get_team_squad` |
| `roster_sportdb.dfy` | `SportDbRoster` | the team-to-id table, `get_teams`, `get_team_squad`, the status check of `_base_request` |
| `roster.dfy` | `Roster` | the `IPremierLeagueApi` interface that the agent is given |
| `agent.dfy` | `Agent` | `AgentState`, `PremierLeagueAgent`, the runtime and `send_message` |
| `prototype.dfy` | `Prototype` | `src/prototype.py`: mock roster, state, nodes, graph, `ask` |

How the model is built:

- **Handlers on values and on objects.** Each node handler is a function on
  the stored values, for example `Agent.ValidateStep`. It is also a method
  that updates the fields of an `AgentState` object in place, for example
  `Agent.PremierLeagueAgent.ValidateQuery`, and that method is proved equal
  to the function.
- **The runtime.** The function `Agent.Execute` describes one run of the
  compiled graph. Each node gets a fresh state object built from the
  committed values. What the node returns is committed together with the
  next node. A node that raises commits nothing and stays pending. The run
  stops before `UserClarify` unless it is the run resuming there. The
  method `Agent.PremierLeagueAgent.RunGraph` runs that loop and is proved
  equal to `Execute`.
- **`send_message`.** `Agent.PremierLeagueAgent.SendMessage` evaluates the
  resume test as the code writes it, and updates the checkpoint map as
  `Agent.RespondAsWritten` describes. `Agent.Respond` is the same dispatcher
  with the corrected test (see "## Findings"). The session, failure and
  reply lemmas are proved for both dispatchers, and the conversation lemmas
  for the one as written.
- **Collaborators are parameters.** The language model, today's date, the
  date parser and the HTTP transport of the SportDB provider are all
  parameters.

Where the code and the documented design disagree, the model follows the code:

- The documented design states that `success` implies a non-empty `answer`. The
  code stores whatever the model replied in `_formulate_response`
  (`src/backend/agent.py:258`), and that reply can be empty. The model keeps
  only `success ⇒ squad set ∧ answer set` (`Agent.Consistent`).
- The consequence of an empty answer is logged under "## Findings".

## Model

| member | source | states |
|---|---|---|
| `Text.LowerSpec` | src/backend/agent.py:164 | lower-casing keeps the length, leaves no capital letter, changes nothing but capitals, and is idempotent |
| `Text.UpperSpec` | src/prototype.py:150 | upper-casing keeps the length, leaves no small letter, changes nothing but small letters, and is idempotent |
| `Text.Lower` | src/backend/agent.py:164 | `str.lower` on ASCII letters, character by character; its properties are `Text.LowerSpec` |
| `Text.Upper` | src/prototype.py:150 | `str.upper` on ASCII letters, character by character; its properties are `Text.UpperSpec` |
| `Text.Strip` | src/backend/agent.py:189 | `str.strip`: the text between the first and the last non-whitespace character; its properties are `Text.StripSpec` |
| `Text.Contains` | src/backend/agent.py:164 | `sub in s`: the text occurs at some position |
| `Text.Join` | src/backend/prompts/formulate_answer.py:25 | `sep.join(parts)`; its properties are `Text.JoinLength` and `Text.JoinStartsWithFirst` |
| `Text.StripSpec` | src/backend/agent.py:189 | `strip` yields a slice of the text; everything cut off before and after is whitespace, and a non-empty result neither starts nor ends with whitespace |
| `Text.JoinLength` | src/backend/prompts/formulate_answer.py:25 | the joined text is as long as the parts plus one separator between each pair of neighbours |
| `Text.JoinStartsWithFirst` | src/backend/prompts/formulate_answer.py:25 | the joined text starts with its first part |
| `Text.NatToString` | src/backend/premier_league_api/sportdb.py:124 | `str(n)` of a natural number is a non-empty string of digits without a leading zero |
| `Text.IntToString` | src/backend/premier_league_api/sportdb.py:124 | `str(n)` is non-empty and starts with a minus sign exactly for a negative number |
| `Assoc.Keys` | src/backend/premier_league_api/local.py:26 | `list(d.keys())` lists the keys in insertion order, one per binding |
| `Assoc.Get` | src/backend/premier_league_api/local.py:38 | `d.get(k)` finds a value exactly when `k` is a key, and the value is bound to `k` |
| `Assoc.GetBinding` | src/backend/premier_league_api/sportdb.py:88 | without repeated keys, looking up a key yields the value bound to it |
| `Squads.GetPlayerGroup` | src/backend/squad.py:41-47 | the loop's dictionary has a group as key exactly when some player falls in it, and lists exactly that group's players in squad order |
| `Squads.PositionTable` | src/backend/squad.py:17-30 | which position texts land in each group; every text outside the table lands in Others |
| `Squads.GroupOf` | src/backend/squad.py:45 | the table's group for a position, `Others` for a position outside it; `Squads.PositionTable` states the result per position |
| `Squads.MembersExactly` | src/backend/squad.py:45-46 | a player is listed under a group exactly when it is in the squad and its position maps to that group |
| `Squads.MembersOfPrefix` | src/backend/squad.py:44-46 | the members found after a shorter prefix of the squad are a prefix of those found after a longer one |
| `Squads.MemberPosition` | src/backend/squad.py:44-46 | each player sits in its group's list right after the group members that precede it in the squad |
| `Squads.MembersKeepOrder` | src/backend/squad.py:44-46 | two players of one group appear in the group's list in their squad order |
| `Squads.GroupSizesSum` | src/backend/squad.py:41-47 | every player lands in exactly one group: the group sizes add up to the number of players |
| `FormulateAnswer.AppendPlayerLines` | src/backend/prompts/formulate_answer.py:19-23 | the inner loop appends one line per member, in order |
| `FormulateAnswer.AppendSection` | src/backend/prompts/formulate_answer.py:17-23 | one pass of the outer loop appends the group's section, or nothing for a group without players |
| `FormulateAnswer.BuildSquadMarkdown` | src/backend/prompts/formulate_answer.py:15-25 | the parts gathered by the loops, joined with newlines, are the title followed by the sections in group order |
| `FormulateAnswer.BuildFormulateAnswerPrompt` | src/backend/prompts/formulate_answer.py:49-55 | the prompt is filled in with the squad markdown, the user's question and today's date |
| `FormulateAnswer.MarkdownStartsWithTitle` | src/backend/prompts/formulate_answer.py:15 | the markdown opens with "# Squad\n" |
| `FormulateAnswer.PlayerLinesAreBullets` | src/backend/prompts/formulate_answer.py:21-23 | player lines are all bullets and never headers |
| `FormulateAnswer.HeaderPart` | src/backend/prompts/formulate_answer.py:18 | a section header is a header and not a bullet |
| `FormulateAnswer.SectionShape` | src/backend/prompts/formulate_answer.py:17-23 | a group's section has its header exactly when the group has players, and one bullet per member |
| `FormulateAnswer.SectionsShape` | src/backend/prompts/formulate_answer.py:16-23 | the headers of all sections are those of the groups with players, in order, and the bullets number the grouped players |
| `FormulateAnswer.HeadersInGroupOrder` | src/backend/prompts/formulate_answer.py:16-18 | section headers appear in the order of `ALL_PLAYER_GROUPS`, only for groups that have players |
| `FormulateAnswer.OneLinePerPlayer` | src/backend/prompts/formulate_answer.py:16-23 | there is one player line per player of the squad |
| `FormulateAnswer.SectionLines` | src/backend/prompts/formulate_answer.py:19-23 | a section is its header and then its members' lines in order; a manager line has no position, every other line ends with it |
| `FormulateAnswer.PlayerLine` | src/backend/prompts/formulate_answer.py:20-23 | a player's bullet: name and birth date, and the position except under Manager; `FormulateAnswer.SectionLines` states its shape |
| `FormulateAnswer.Section` | src/backend/prompts/formulate_answer.py:17-23 | a group's header and bullets, nothing for a group without players; `FormulateAnswer.SectionShape` states its shape |
| `FormulateAnswer.SquadMarkdown` | src/backend/prompts/formulate_answer.py:15-25 | the title and the sections in group order, joined with newlines; `FormulateAnswer.BuildSquadMarkdown` proves the loops compute it |
| `RosterApi.ConvertAll` | src/backend/premier_league_api/local.py:44-51 | the comprehension succeeds exactly when every record converts, and then lists one player per record, in order |
| `RosterApi.FirstFailure` | src/backend/premier_league_api/local.py:44-51 | the first record that does not convert; every record before it converts |
| `RosterApi.ConvertAllFirstError` | src/backend/premier_league_api/local.py:44-51 | a failed comprehension raises the exception of the first record that fails |
| `LocalRoster.GetTeams` | src/backend/premier_league_api/local.py:24-26 | the team list is the data's keys, in order; a name is listed exactly when the data has players for it |
| `LocalRoster.ToPlayer` | src/backend/premier_league_api/local.py:45-49 | a record converts exactly when it has the three fields and a parseable date; a missing field raises `KeyError`, in field order, and a bad date raises `ValueError` |
| `LocalRoster.GetTeamSquad` | src/backend/premier_league_api/local.py:28-52 | `TeamNotFound` exactly for a name that is not a key, with no normalisation; a found squad is named after the request and has one player per record |
| `LocalRoster.SquadFromRecords` | src/backend/premier_league_api/local.py:44-52 | each player's name, position and birth date come from the record at the same index |
| `LocalRoster.ListedTeamErrors` | src/backend/premier_league_api/local.py:44-51 | a listed team fails only through a malformed record, and then with the first malformed record's exception |
| `SportDbRoster.GetTeams` | src/backend/premier_league_api/sportdb.py:68-76 | the team list is the table's names, in table order |
| `SportDbRoster.RequestUrl` | src/backend/premier_league_api/sportdb.py:116 | the URL is the base URL, a slash and the endpoint |
| `SportDbRoster.SquadEndpoint` | src/backend/premier_league_api/sportdb.py:92 | the squad endpoint filled in with a team id; `SportDbRoster.SquadRequestUrl` states the URL fetched |
| `SportDbRoster.BaseRequest` | src/backend/premier_league_api/sportdb.py:108-128 | the request succeeds exactly on status 200, with the response's body; otherwise it raises `APIError` |
| `SportDbRoster.ToPlayer` | src/backend/premier_league_api/sportdb.py:101-105 | an entry whose fields are texts converts exactly when its birth date parses; name and position default to the empty text |
| `SportDbRoster.SquadFromBody` | src/backend/premier_league_api/sportdb.py:93-106 | a request error propagates as `APIError`, an empty or missing list raises `APIError`, and a found squad is named after the request |
| `SportDbRoster.GetTeamSquad` | src/backend/premier_league_api/sportdb.py:78-106 | `TeamNotFound` exactly for a name outside the table; of the errors modelled, only `APIError` or `ValueError` otherwise; a found squad is named after the request |
| `SportDbRoster.TableSize` | src/backend/premier_league_api/sportdb.py:23-44 | the table lists twenty clubs |
| `SportDbRoster.TableKeysDistinct` | src/backend/premier_league_api/sportdb.py:23-44 | no club name is listed twice |
| `SportDbRoster.TableIdsNonEmpty` | src/backend/premier_league_api/sportdb.py:89 | every id is non-empty, so the falsy-id test never fires for a listed club |
| `SportDbRoster.IdsNonEmpty` | src/backend/premier_league_api/sportdb.py:88-90 | the id found for a name is non-empty |
| `SportDbRoster.SquadRequestUrl` | src/backend/premier_league_api/sportdb.py:92-93 | a listed club finds its own id, and the fetched URL is the base URL, "/", "list/players/" and that id |
| `SportDbRoster.UnknownTeamSendsNoRequest` | src/backend/premier_league_api/sportdb.py:88-90 | an unknown name is rejected before any request: the outcome does not depend on the service |
| `SportDbRoster.OnlyTheTeamUrlIsFetched` | src/backend/premier_league_api/sportdb.py:92-93 | for a listed club, only the response to that club's squad URL matters |
| `SportDbRoster.FailedResponses` | src/backend/premier_league_api/sportdb.py:95-99 | a non-OK status raises `APIError`, and so does an OK response without players |
| `SportDbRoster.SquadFromResponse` | src/backend/premier_league_api/sportdb.py:101-105 | a found squad has one player per entry of a non-empty list, in order, with the entry's name and position |
| `Roster.GetTeamSquad` | src/backend/premier_league_api/base.py:17-28 | either provider rejects a name with `TeamNotFound` exactly when it is not listed, and names a found squad after the request |
| `Roster.Api` | src/backend/premier_league_api/base.py:4-28 | a provider seen through the interface keeps its team list and its lookups |
| `Roster.ProvidersHonour` | src/backend/premier_league_api/base.py:17-28 | both providers honour the interface's promise that the agent relies on |
| `Agent.ValidateStep` | src/backend/agent.py:164-169 | `valid` exactly when the lower-cased reply contains "yes"; otherwise the rejection text is the answer; nothing else changes |
| `Agent.ExtractTeamStep` | src/backend/agent.py:187-197 | the team name is the stripped, lower-cased reply, and `team_found` is exactly its membership in the provider's list; nothing else changes |
| `Agent.ClarifyStep` | src/backend/agent.py:209-213 | the model's question about the listed clubs and the query becomes the clarification request; nothing else changes |
| `Agent.UserClarifyStep` | src/backend/agent.py:226-239 | the interpreted name is stored and found exactly when listed; an unresolved name sets the apology and `success` false |
| `Agent.GetSquadStep` | src/backend/agent.py:241-248 | an unset or empty name raises `ValueError`; a provider error propagates; otherwise the squad is stored |
| `Agent.FormulateResponseStep` | src/backend/agent.py:251-260 | raises `ValueError` exactly without a squad; otherwise the model's answer to the squad prompt is stored and `success` set |
| `Agent.Route` | src/backend/agent.py:65-90 | every edge taken is a wired edge and leads further down the wiring; END only after Validate, UserClarify or FormulateResponse |
| `Agent.RoutingRules` | src/backend/agent.py:65-90 | the conditional edges, read per node, in both directions |
| `Agent.Step` | src/backend/agent.py:55-60 | the handler registered for each node, as a function on the committed values |
| `Agent.Execute` | src/backend/agent.py:55-92 | one run of the compiled graph: nodes one at a time, a commit after each, the pause before `UserClarify`, and a raise leaving the node pending; `Agent.ExecuteFollowsWiring`, `Agent.ExecuteEnds`, `Agent.ExecuteKeepsSession` and `Agent.ExecuteFailures` state its properties |
| `Agent.ExecuteFollowsWiring` | src/backend/agent.py:55-92 | a run's nodes start at the start node and each is followed by one of its successors |
| `Agent.ExecuteEnds` | src/backend/agent.py:65-92 | a finished run ends at a node the graph may end after; an unfinished one leaves the next node pending, `UserClarify` for a pause |
| `Agent.FreshIsReady` | src/backend/agent.py:144 | a fresh `AgentState(user_query=...)` meets the record invariants |
| `Agent.StepAdvances` | src/backend/agent.py:189-196 | a completed node keeps `team_found ⇒ team_name listed` and `success ⇒ squad and answer set`, and ends the graph only with an answer |
| `Agent.ExecuteKeepsSession` | src/backend/agent.py:92 | every run leaves a checkpoint a session may hold: paused exactly before `UserClarify`, finished exactly at END, with an answer |
| `Agent.ExecuteFailures` | src/backend/agent.py:241-253 | under the invariants, of the errors modelled a run raises only provider errors other than an unknown team, or the error for an empty name the provider lists |
| `Agent.ResumeIsReady` | src/backend/agent.py:112-114 | a session passing the resume test has a node pending, and the values with the reply written in are ready for it |
| `Agent.ClarificationNeeded` | src/backend/agent.py:108-110 | the corrected resume test: a stored session with no answer set and a non-empty clarification request |
| `Agent.ClarificationNeededAsWritten` | src/backend/agent.py:108-110 | the resume test as written, where an empty answer counts as none |
| `Agent.Resume` | src/backend/agent.py:112-117 | the reply is written into the stored values and the run continues at the pending node; nothing runs for a session with no node pending |
| `Agent.Deliver` | src/backend/agent.py:112-126 | a resumed run replies with its answer; a fresh run replies with a non-empty clarification request, or else with the answer; a raise is the reply's error |
| `Agent.RespondAsWritten` | src/backend/agent.py:94-126 | `send_message` with the resume test as written; its properties are the `Respond…` lemmas and the conversation lemmas |
| `Agent.Respond` | src/backend/agent.py:94-126 | `send_message` with the corrected resume test; its properties are the `Respond…` lemmas and `Agent.EmptyAnswerAfterClarification` |
| `Agent.RespondKeepsSession` | src/backend/agent.py:94-126 | every message, from no checkpoint or from a session checkpoint, leaves a session checkpoint, under the resume test as written and under the corrected one |
| `Agent.ResumeTest` | src/backend/agent.py:108-112 | on a session checkpoint, the corrected resume test holds exactly for a pending node with a non-empty request, and never for a finished session |
| `Agent.FreshWhenNoRequest` | src/backend/agent.py:119-120 | a thread without a checkpoint, or without a clarification request, starts fresh under either resume test |
| `Agent.RespondFailures` | src/backend/agent.py:94-126 | under either resume test, a reply that is a raised error is a provider error other than `TeamNotFound`, or the empty-name check for a provider listing the empty name |
| `Agent.RepliesOfRuns` | src/backend/agent.py:108-126 | under either resume test, a finished session replies with its answer, which is set; a paused one replies with its clarification request |
| `Agent.GetSquadFound` | src/backend/agent.py:241-248 | GetSquad on a name the provider resolves stores the squad |
| `Agent.ValidateAccepts` | src/backend/agent.py:164-165 | an accepted query sets `valid` and goes on to ExtractTeam |
| `Agent.ExtractMisses` | src/backend/agent.py:189-196 | an unlisted name is stored, not found, and leads to Clarify |
| `Agent.ExtractFinds` | src/backend/agent.py:189-196 | a listed name is stored, found, and leads to GetSquad |
| `Agent.FormulateFound` | src/backend/agent.py:251-260 | FormulateResponse on a state holding a squad completes |
| `Agent.ClarifyPauses` | src/backend/agent.py:79-92 | Clarify completes and the run pauses before UserClarify |
| `Agent.MissPauses` | src/backend/agent.py:72-92 | ExtractTeam that misses runs Clarify and pauses before UserClarify |
| `Agent.ClarifyChain` | src/backend/agent.py:65-92 | Validate that accepts and ExtractTeam that misses run Clarify and pause |
| `Agent.RejectedQuery` | src/backend/agent.py:164-168 | a refused query runs only Validate, finishes, and the reply is the rejection |
| `Agent.SquadThenAnswer` | src/backend/agent.py:241-260 | from a found team, the squad is fetched, the answer formulated, and the graph ends |
| `Agent.FoundChain` | src/backend/agent.py:65-90 | Validate that accepts and ExtractTeam that finds the team lead through GetSquad and FormulateResponse to END |
| `Agent.DirectRun` | src/backend/agent.py:144 | the run for a query naming a listed team passes the four nodes and finishes with the formulated answer |
| `Agent.DirectAnswer` | src/backend/agent.py:119-126 | a query naming a listed team is answered with the model's answer about that squad, and the session finishes with success |
| `Agent.ClarifyRun` | src/backend/agent.py:199-213 | the run for a query whose team is not listed passes Validate, ExtractTeam and Clarify and pauses with the request stored |
| `Agent.AsksForClarification` | src/backend/agent.py:119-123 | such a query pauses before UserClarify with the request set and no answer, and the reply is the request |
| `Agent.ClarificationResolved` | src/backend/agent.py:112-117 | a reply that resolves to a listed team resumes at UserClarify, records the reply, and ends with the formulated answer |
| `Agent.ResolvedRun` | src/backend/agent.py:215-260 | the resumed run through UserClarify, GetSquad and FormulateResponse to END |
| `Agent.ClarificationUnresolved` | src/backend/agent.py:234-237 | a reply that resolves to no listed team runs only UserClarify and ends with the apology and `success` false |
| `Agent.ResumeTestsDiffer` | src/backend/agent.py:109 | the test as written and the corrected test differ exactly on an empty answer next to a non-empty request |
| `Agent.AsWrittenTrapsFinishedSession` | src/backend/agent.py:108-117 | as written, a finished session with an empty answer and a request resumes on every message, runs nothing, and replies with the empty answer |
| `Agent.EmptyAnswerAfterClarification` | src/backend/agent.py:109 | a clarified conversation whose answer is empty is trapped by the test as written, and starts fresh at Validate under the corrected test |
| `Agent.FreshStartsAtValidate` | src/backend/agent.py:61 | a fresh run always completes Validate first |
| `Agent.AgentState.constructor` | src/backend/agent.py:22-33 | the state object holds exactly the stored values |
| `Agent.PremierLeagueAgent.constructor` | src/backend/agent.py:40-52 | the agent keeps its model, provider and thread id, and the checkpoint store starts empty |
| `Agent.PremierLeagueAgent.ValidateQuery` | src/backend/agent.py:147-169 | the handler updates the object as `ValidateStep` says |
| `Agent.PremierLeagueAgent.ExtractTeam` | src/backend/agent.py:171-197 | the handler updates the object as `ExtractTeamStep` says |
| `Agent.PremierLeagueAgent.AskForClarification` | src/backend/agent.py:199-213 | the handler updates the object as `ClarifyStep` says |
| `Agent.PremierLeagueAgent.HandleUserClarification` | src/backend/agent.py:215-239 | the handler updates the object as `UserClarifyStep` says |
| `Agent.PremierLeagueAgent.SearchSquad` | src/backend/agent.py:241-248 | the handler updates the object or raises as `GetSquadStep` says, and a raise leaves the object unchanged |
| `Agent.PremierLeagueAgent.FormulateResponse` | src/backend/agent.py:251-260 | the handler updates the object or raises as `FormulateResponseStep` says, and a raise leaves the object unchanged |
| `Agent.PremierLeagueAgent.RunNode` | src/backend/agent.py:55-60 | the handler registered for each node behaves as `Step` says |
| `Agent.PremierLeagueAgent.RunGraph` | src/backend/agent.py:92 | the node-by-node loop, with its pause and its stop on a raise, yields exactly the run `Execute` describes |
| `Agent.PremierLeagueAgent.Invoke` | src/backend/agent.py:134-145 | a fresh run from Validate whose checkpoint replaces the thread's |
| `Agent.PremierLeagueAgent.SendMessage` | src/backend/agent.py:94-126 | with the resume test as written, the reply and the new checkpoint map are those `RespondAsWritten` describes; only this thread's checkpoint changes |
| `Prototype.AvailableTeams` | src/prototype.py:37-38 | the team list is the mock's keys; a name is listed exactly when the mock has a squad for it |
| `Prototype.SearchSquad` | src/prototype.py:40-42 | a lookup finds a squad exactly for a listed name |
| `Prototype.MockedRoster` | src/prototype.py:31-35 | the mock lists exactly its three teams, each with its one goalkeeper, shirt number 1, and finds nothing for any other name |
| `Prototype.ValidateStep` | src/prototype.py:127-141 | `valid` exactly when the lower-cased reply contains "yes"; otherwise the rejection text is the answer |
| `Prototype.ExtractTeamStep` | src/prototype.py:110-125 | the name is the stripped, lower-cased reply, found exactly when the mock lists it |
| `Prototype.ClarifyStep` | src/prototype.py:143-146 | only the fixed apology is set |
| `Prototype.GetSquadStep` | src/prototype.py:58-61 | the stored squad is the mock's squad for the name, and none for a missing or unlisted name |
| `Prototype.FormulateResponseStep` | src/prototype.py:148-154 | succeeds exactly with a name and a squad, with "The squad of NAME is [players]" and `success`; a missing name raises first |
| `Prototype.Step` | src/prototype.py:72-76 | only FormulateResponse can raise |
| `Prototype.Route` | src/prototype.py:80-88 | every edge taken is wired and leads down; END only after Validate, Clarify or FormulateResponse |
| `Prototype.RoutingRules` | src/prototype.py:80-88 | the conditional edges per node |
| `Prototype.Execute` | src/prototype.py:72-102 | one run of the compiled prototype graph from a node to END; `Prototype.ExecuteNeverRaises` and `Prototype.FreshRun` state its properties |
| `Prototype.ExecuteNeverRaises` | src/prototype.py:148-154 | along the wiring FormulateResponse always has a name and a squad, so no run raises |
| `Prototype.OnePlayerAnswer` | src/prototype.py:150 | a one-player squad prints as a one-element list |
| `Prototype.PlayerRepr` | src/prototype.py:16-22 | `repr` of a player record, with its three fields in order |
| `Prototype.ListRepr` | src/prototype.py:150 | `repr` of a list of players: the players' reprs between brackets, comma-separated |
| `Prototype.TeamAnswer` | src/prototype.py:150-152 | the reply for a team: the upper-cased name and the squad's list, or the apology when the mock has no such team |
| `Prototype.MockedAnswers` | src/prototype.py:150-152 | each mocked team's answer names its goalkeeper in a one-element list |
| `Prototype.FoundRun` | src/prototype.py:87-88 | from a found team the run passes GetSquad and FormulateResponse and succeeds with the team's answer |
| `Prototype.ExtractRun` | src/prototype.py:83-86 | from ExtractTeam the run goes through the squad exactly for a listed name, otherwise ends at Clarify without success |
| `Prototype.RelevantRun` | src/prototype.py:80-82 | a relevant query passes Validate and continues at ExtractTeam |
| `Prototype.FreshRun` | src/prototype.py:90-102 | a fresh run never raises, passes the expected nodes, answers the expected text, and succeeds exactly for a relevant query naming a listed team |
| `Prototype.AgentState.constructor` | src/prototype.py:47-55 | the state object holds exactly the given values |
| `Prototype.SearchSquadNode` | src/prototype.py:58-61 | the module-level node updates the object as `GetSquadStep` says |
| `Prototype.PremierLeagueAgent.constructor` | src/prototype.py:67-90 | the agent keeps its model and reads the module-level mock |
| `Prototype.PremierLeagueAgent.ValidateQuery` | src/prototype.py:127-141 | the handler updates the object as `ValidateStep` says |
| `Prototype.PremierLeagueAgent.ExtractTeam` | src/prototype.py:110-125 | the handler updates the object as `ExtractTeamStep` says |
| `Prototype.PremierLeagueAgent.AskForClarification` | src/prototype.py:143-146 | the handler updates the object as `ClarifyStep` says |
| `Prototype.PremierLeagueAgent.FormulateResponse` | src/prototype.py:148-154 | the handler updates the object or raises as `FormulateResponseStep` says |
| `Prototype.PremierLeagueAgent.RunNode` | src/prototype.py:72-76 | the handler registered for each node behaves as `Step` says |
| `Prototype.PremierLeagueAgent.RunGraph` | src/prototype.py:90 | the node-by-node loop yields exactly the run `Execute` describes |
| `Prototype.PremierLeagueAgent.Invoke` | src/prototype.py:99-102 | a fresh graph run from Validate |
| `Prototype.PremierLeagueAgent.Ask` | src/prototype.py:92-97 | the reply is always set, and is the rejection, the apology or the rendered squad, as `ExpectedAnswer` says |

## Left out

- The LangGraph library. Only what it does for this graph is modelled: nodes
  run one at a time on a state rebuilt from the committed values, a
  checkpoint is committed after every node, `interrupt_before` pauses, and
  `update_state` followed by `Command(resume=...)` continues at the pending
  node.
- The input record of a fresh run is assumed to overwrite every field of
  the stored state, as a dataclass input writing each field does.
- The language model (`ChatOpenAI.invoke`) is an uninterpreted function from
  a prompt to the reply's content. The prompt templates' prose,
  `src/backend/prompts/clarify_team_name.py` and
  `src/backend/prompts/interpret_user_clarification.py`, is represented
  only by the prompt's constructor and its arguments.
- `user_query` is a `HumanMessage`; only its `content` text is modelled.
- `date.fromisoformat` is a parameter (`RosterApi.DateParser`). Dates are
  opaque values with their ISO text. `date.today()` is a parameter.
- HTTP transport, retries, timeouts, headers and the API key of the SportDB
  provider. The response to a URL is a parameter (`SportDbRoster.Transport`),
  and the JSON body is a value.
- JSON file loading in `LocalPremierLeagueApi.__init__`. The loaded data is
  the provider's value.
- async/await and concurrent `send_message` calls. The dispatcher is
  sequential.
- The random thread id. It is supplied to the constructor.
- `save_graph_as_image` in both agents: file I/O.
- Logging, configuration, the Streamlit UI, `PrototypeUI` and `main`.
- The prototype's `time.sleep(0.5)`.
- `Agent.ExecuteFailures`: the model call never raises. An exception of
  `ChatOpenAI.invoke` (network, quota, authentication) would propagate out
  of any handler that calls the model, and it is not modelled.
- `Agent.RespondFailures`: for the same reason, the errors it lists are
  those of the modelled providers only; a raised model call is not among
  them.
- `SportDbRoster.ToPlayer`: an entry of the JSON list is a map from field
  names to texts. A `null` or non-text field is not modelled: a `null`
  `dateBorn` makes `date.fromisoformat` raise `TypeError`, and a `null`
  `strPlayer` makes the `Player` constructor raise a validation error.
- `SportDbRoster.GetTeamSquad`: besides the entry shapes above, errors of
  the HTTP client (connection, timeout) and a body that is not JSON are not
  modelled, so its error cases are those of the modelled responses.
- `LocalRoster.GetTeams`: the loaded data is an association list that may
  repeat a key, which a Python dict cannot; data with a repeated team name
  lists it twice and looks up its first binding.
- `Text.LowerSpec`: only ASCII letters are case-mapped, because Unicode
  case tables are not part of the model.
- `Text.UpperSpec`: only ASCII letters are case-mapped, for the same reason.
- Python's `repr` escaping: in the prototype's reply, a player name or
  position that contains a quote or a backslash is printed as is.
- The agent sees its provider through `Roster.SquadApi`. Its conversation
  lemmas assume `Roster.Honours` where they need the interface's promise,
  and `Roster.ProvidersHonour` proves it for both providers.
- In the prototype lemmas, the roster is a parameter. `MockedRoster` and
  `MockedAnswers` specialise them to the module-level mock.
- `if not state.squad` in `_formulate_response` is read as "no squad is
  set", since a model object is always truthy.
- Stale callers are not modelled:
  - `tests/evaluation.py` and `src/frontend/app.py` unpack `send_message`
    as a tuple.
  - `tests/test_use_cases.py` and `tests/playground.py` pass two arguments
    to the prototype's constructor.
  - `PrototypeUI.run` calls a missing `invoke`.

## Findings

| source | as written | input that shows it | evidently intended | confidence | as-written member | corrected member |
|---|---|---|---|---|---|---|
| src/backend/agent.py:109 | `not graph_states.get('answer', None)` also holds for an answer that is the empty text, so a finished session with a clarification request counts as waiting for clarification | a query about an unlisted team, a clarification reply resolving to a listed team, and a model that returns empty content for the answer prompt; every later message then resumes the finished graph, runs no node, and replies with the empty answer | resume only while no answer is set, so a finished conversation starts the next message fresh at Validate | not executed | `Agent.AsWrittenTrapsFinishedSession` (with `Agent.RespondAsWritten`) | `Agent.EmptyAnswerAfterClarification` (with `Agent.Respond` and `Agent.ResumeTest`) |
