/**
 * The services' collaborators that this model does not contain: the
 * Gemini chat model, `JSON.parse`, the ChromaDB similarity query, the job
 * search API and Firebase token verification. Each is a function supplied
 * by the caller. A model call is described by a `Prompt` that keeps the
 * values the service interpolates and abstracts the fixed wording.
 *
 * The services record the external calls they make, in order, as a trace
 * of `Call`s.
 */
module Collaborators {
  import opened Wrappers
  import opened Js
  import opened ZodSchemas
  import opened RoadmapRepository

  /** A LangChain chat message. */
  datatype Turn = System(text: string) | Human(text: string) | Ai(text: string)

  /** The values a prompt interpolates; the surrounding wording is fixed per constructor. */
  datatype Prompt =
    | RecommendationPrompt(interests: string, skills: string, values: string, personality: Option<string>)
    | RoadmapPrompt(profile: Json, job: Json)
    | SynthesisPrompt(profile: Json, roadmap: Option<RoadmapDoc>)
    | QueryPrompt(summary: string, request: string)
    | PersonalizationPrompt(profile: Json, listings: Json)
    | ChatPrompt(turns: seq<Turn>)

  /**
   * `llm`: the text of the model's reply, or the error the call throws.
   * `parseJson`: `JSON.parse`, None where it throws a SyntaxError.
   * `retrieve`: the texts of the documents `queryRelevant` returns.
   * `searchJobs`: the raw listings `searchJobsAPI` returns.
   * `verifyToken`: the decoded token, None where `verifyIdToken` rejects it.
   */
  datatype Env = Env(
    llm: Prompt -> Result<string>,
    parseJson: string -> Option<Json>,
    retrieve: string -> Result<seq<string>>,
    searchJobs: string -> Result<Json>,
    verifyToken: string -> Option<Json>,
    formats: Formats)

  /** One external call, as it appears in a trace. */
  datatype Call =
    | ReadProfile
    | ReadPrimaryRoadmap
    | InvokeModel(prompt: Prompt)
    | SearchJobs(query: string)
    | QueryKnowledge(query: string)
    | ReadMessages
    | AppendMessage(role: string)
    | SaveRoadmapDoc(data: map<string, Json>)

  /** The profile as `JSON.stringify` receives it: null for a missing document. */
  function ProfileJson(p: Option<map<string, Json>>): (r: Json)
    ensures r.JNull? <==> p.None?
    ensures p.Some? ==> r == JObj(p.value)
  {
    if p.Some? then JObj(p.value) else JNull
  }
}
