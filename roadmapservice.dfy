/**
 * `createRoadmapForJob`: the user's profile and the target job go into a
 * prompt, the model's reply is cleaned and parsed, and the record
 * `{ jobDetails, roadmap }` is saved as a new roadmap. The reply is not
 * checked against any schema.
 */
module RoadmapService {
  import opened Wrappers
  import opened Js
  import opened JsonCleaning
  import opened Collaborators
  import opened RoadmapRepository
  import opened UserRepository

  /**
   * `{ jobDetails, roadmap: roadmapData.roadmap90Days }`. A reply without
   * `roadmap90Days` leaves `roadmap` undefined, and the key is absent.
   */
  function RoadmapRecord(jobDetails: Json, roadmap: Option<Json>): (d: map<string, Json>)
    ensures d.Keys == {"jobDetails"} + (if roadmap.Some? then {"roadmap"} else {})
    ensures d["jobDetails"] == jobDetails
    ensures roadmap.Some? ==> d["roadmap"] == roadmap.value
  {
    map["jobDetails" := jobDetails] + (if roadmap.Some? then map["roadmap" := roadmap.value] else map[])
  }

  /** The record to save, or the error thrown before the save, and the calls made up to then. */
  datatype Plan = Plan(record: Result<map<string, Json>>, calls: seq<Call>)

  /** Everything `createRoadmapForJob` does before `saveRoadmap`, for the profile `getUserProfile` returned. */
  function PlanRoadmap(env: Env, profile: Option<map<string, Json>>, jobDetails: Json): Plan {
    var prompt := RoadmapPrompt(ProfileJson(profile), jobDetails);
    var calls := [ReadProfile, InvokeModel(prompt)];
    match env.llm(prompt)
    case Err(e) => Plan(Err(e), calls)
    case Ok(text) =>
      match env.parseJson(CleanJsonResponse(text))
      case None => Plan(Err(SyntaxError), calls)
      case Some(data) =>
        match Get(data, "roadmap90Days")
        case Err(e) => Plan(Err(e), calls)
        case Ok(roadmap) => Plan(Ok(RoadmapRecord(jobDetails, roadmap)), calls)
  }

  /** `{ roadmapId, ...roadmapToSave }`. */
  function Created(roadmapId: string, record: map<string, Json>): (r: map<string, Json>)
    requires "roadmapId" !in record
    ensures r.Keys == {"roadmapId"} + record.Keys
    ensures r["roadmapId"] == JStr(roadmapId)
    ensures forall k :: k in record ==> r[k] == record[k]
  {
    map["roadmapId" := JStr(roadmapId)] + record
  }

  /** `createRoadmapForJob(userId, jobDetails)`; `freshId` is the id `doc()` assigns. */
  method CreateRoadmapForJob(users: ProfileStore, roadmaps: RoadmapStore, env: Env,
                             userId: string, jobDetails: Json, freshId: string)
    returns (r: Result<map<string, Json>>, calls: seq<Call>)
    requires roadmaps.Valid() && freshId !in roadmaps.Docs(userId)
    modifies roadmaps
    ensures roadmaps.Valid()
    ensures var plan := PlanRoadmap(env, users.GetUserProfile(userId), jobDetails);
            plan.record.Err? ==>
              r == Err(plan.record.error) && calls == plan.calls
              && roadmaps.roadmaps == old(roadmaps.roadmaps) && roadmaps.clock == old(roadmaps.clock)
    ensures var plan := PlanRoadmap(env, users.GetUserProfile(userId), jobDetails);
            plan.record.Ok? ==>
              "roadmapId" !in plan.record.value
              && r == Ok(Created(freshId, plan.record.value))
              && calls == plan.calls + [SaveRoadmapDoc(plan.record.value)]
              && roadmaps.clock == old(roadmaps.clock) + 1
              && roadmaps.roadmaps == old(roadmaps.roadmaps)[userId :=
                   old(roadmaps.Docs(userId))[freshId := RoadmapDoc(plan.record.value, old(roadmaps.clock), [])]]
  {
    var userProfile := users.GetUserProfile(userId);
    calls := [ReadProfile];

    var prompt := RoadmapPrompt(ProfileJson(userProfile), jobDetails);
    calls := calls + [InvokeModel(prompt)];
    var response := env.llm(prompt);
    if response.Err? {
      return Err(response.error), calls;
    }
    var roadmapData := env.parseJson(CleanJsonResponse(response.value));
    if roadmapData.None? {
      return Err(SyntaxError), calls;
    }
    var roadmap := Get(roadmapData.value, "roadmap90Days");
    if roadmap.Err? {
      return Err(roadmap.error), calls;
    }
    var roadmapToSave := RoadmapRecord(jobDetails, roadmap.value);
    ghost var plan := PlanRoadmap(env, userProfile, jobDetails);
    assert plan.record == Ok(roadmapToSave) && plan.calls == calls;

    assert roadmapToSave - ReservedKeys == roadmapToSave;
    var roadmapId := roadmaps.SaveRoadmap(userId, roadmapToSave, freshId);
    calls := calls + [SaveRoadmapDoc(roadmapToSave)];
    r := Ok(Created(roadmapId, roadmapToSave));
  }

  // ---------------------------------------------------------------------
  // Properties

  /**
   * The saved record is the job as given plus `roadmap90Days` of the
   * parsed reply, under `roadmap`, and nothing else; it holds neither
   * `createdAt` nor `completedTasks`, so the store keeps it whole.
   */
  lemma SavedRecord(env: Env, profile: Option<map<string, Json>>, jobDetails: Json)
    ensures var plan := PlanRoadmap(env, profile, jobDetails);
            plan.record.Ok? ==>
              var text := env.llm(RoadmapPrompt(ProfileJson(profile), jobDetails)).value;
              var data := env.parseJson(CleanJsonResponse(text)).value;
              plan.record.value["jobDetails"] == jobDetails
              && ("roadmap" in plan.record.value <==> data.JObj? && "roadmap90Days" in data.fields)
              && ("roadmap" in plan.record.value ==> plan.record.value["roadmap"] == data.fields["roadmap90Days"])
              && plan.record.value.Keys <= {"jobDetails", "roadmap"}
              && plan.record.value - ReservedKeys == plan.record.value
  {
  }

  /**
   * The model is called once, after the profile is read, with the profile
   * (null when there is none; that is not an error) and the job.
   */
  lemma PromptCarriesProfile(env: Env, profile: Option<map<string, Json>>, jobDetails: Json)
    ensures var plan := PlanRoadmap(env, profile, jobDetails);
            plan.calls == [ReadProfile, InvokeModel(RoadmapPrompt(ProfileJson(profile), jobDetails))]
            && (profile.None? ==> plan.calls[1] == InvokeModel(RoadmapPrompt(JNull, jobDetails)))
  {
  }

  /**
   * A reply that does not parse throws a SyntaxError, and one that parses
   * to null a TypeError; neither is saved.
   */
  lemma ParseFailures(env: Env, profile: Option<map<string, Json>>, jobDetails: Json, text: string)
    requires env.llm(RoadmapPrompt(ProfileJson(profile), jobDetails)) == Ok(text)
    ensures var plan := PlanRoadmap(env, profile, jobDetails);
            (env.parseJson(CleanJsonResponse(text)).None? ==> plan.record == Err(SyntaxError))
            && (env.parseJson(CleanJsonResponse(text)) == Some(JNull) ==> plan.record == Err(TypeError))
  {
  }

  /**
   * Nothing checks the reply's shape: any parsed value other than null
   * is saved, and one without `roadmap90Days` is saved with the job alone.
   */
  lemma UncheckedReplySaved(env: Env, profile: Option<map<string, Json>>, jobDetails: Json, text: string, data: Json)
    requires env.llm(RoadmapPrompt(ProfileJson(profile), jobDetails)) == Ok(text)
    requires env.parseJson(CleanJsonResponse(text)) == Some(data) && !data.JNull?
    ensures var plan := PlanRoadmap(env, profile, jobDetails);
            plan.record.Ok?
            && (!(data.JObj? && "roadmap90Days" in data.fields) ==> plan.record.value == map["jobDetails" := jobDetails])
  {
  }

  /** A model error propagates unchanged, before anything is saved. */
  lemma ModelErrorPropagates(env: Env, profile: Option<map<string, Json>>, jobDetails: Json)
    requires env.llm(RoadmapPrompt(ProfileJson(profile), jobDetails)).Err?
    ensures PlanRoadmap(env, profile, jobDetails).record
            == Err(env.llm(RoadmapPrompt(ProfileJson(profile), jobDetails)).error)
  {
  }
}
