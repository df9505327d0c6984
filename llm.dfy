/** The language model seen from the workflow: an oracle from a prompt to the
    text of its reply. Each constructor stands for one prompt template filled
    in with its arguments; the template prose itself is constant text and
    carries no behaviour of the workflow. */
module Llm {
  import opened Wrappers

  datatype Prompt =
      /** The YES/NO relevance question about the user's query. */
      ValidateQuery(query: string)
      /** The request to name the team the query is about. */
    | ExtractTeam(query: string)
      /** The clarify-team-name template, filled with the known clubs and the user's message. */
    | ClarifyTeamName(clubs: seq<string>, userPrompt: string)
      /** The interpret-clarification template, filled with the earlier request
          and the user's reply; Python renders a missing value as "None". */
    | InterpretClarification(clarificationRequest: Option<string>, clarificationResponse: Option<string>)
      /** The formulate-answer template, filled with the squad in markdown, the
          user's question and today's date. */
    | FormulateAnswer(squadMarkdown: string, userQuestion: string, today: string)

  /** `ChatOpenAI.invoke(prompt).content`. */
  type Model = Prompt -> string
}
