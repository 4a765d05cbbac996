/**
 * `findPersonalizedJobs`: the profile and the primary roadmap are
 * summarised by the model, the summary and the user's request become a
 * search query, the job search API's listings are sorted by the model
 * into three buckets, each job of each bucket is repaired, and the
 * result is parsed with `JobSearchOutputSchema`.
 */
module JobSearchService {
  import opened Wrappers
  import opened Js
  import opened ZodSchemas
  import opened JsonCleaning
  import opened Collaborators
  import opened RoadmapRepository
  import opened UserRepository

  /** The url a job gets when its own is missing or does not parse. */
  const PlaceholderUrl: string := "https://example.com/job"

  /** The three buckets, in the order they are repaired. */
  const Buckets: seq<string> := ["passionRoles", "strengthRoles", "growthRoles"]

  // ---------------------------------------------------------------------
  // Repairing one job

  /**
   * `isValidUrl`: `new URL(url)` does not throw. zod's `.url()` makes the
   * same check, so both are the one `isUrl` format.
   */
  predicate IsValidUrl(fm: Formats, url: string) {
    fm.isUrl(url)
  }

  /** The property read `job.key` on a value that is not null. */
  function Prop(job: Json, key: string): (r: Option<Json>)
    ensures r.Some? <==> job.JObj? && key in job.fields
    ensures r.Some? ==> r.value == job.fields[key]
  {
    if job.JObj? && key in job.fields then Some(job.fields[key]) else None
  }

  /** `{ ...job }`: an object's own keys; numbers and booleans spread to nothing. */
  function Spread(job: Json): map<string, Json> {
    if job.JObj? then job.fields else map[]
  }

  /**
   * One job of `fixJobDetails`: the job's keys with `description` forced
   * to a string and `url` to a valid URL. Reading a property of null
   * throws a TypeError.
   */
  function FixJob(fm: Formats, job: Json): (r: Result<Json>)
    ensures r.Err? <==> job.JNull?
    ensures r.Err? ==> r.error == TypeError
    ensures r.Ok? ==>
              r.value.JObj?
              && r.value.fields.Keys == Spread(job).Keys + {"description", "url"}
              && (forall k :: k in Spread(job) && k != "description" && k != "url" ==> r.value.fields[k] == Spread(job)[k])
    ensures r.Ok? ==>
              var d := Prop(job, "description");
              r.value.fields["description"].JStr?
              && (d.Some? && d.value.JStr? ==> r.value.fields["description"] == d.value)
              && (!(d.Some? && d.value.JStr?) ==> r.value.fields["description"] == JStr(""))
    ensures r.Ok? ==>
              var u := Prop(job, "url");
              r.value.fields["url"].JStr?
              && (u.Some? && u.value.JStr? && IsValidUrl(fm, u.value.s) ==> r.value.fields["url"] == u.value)
              && (!(u.Some? && u.value.JStr? && IsValidUrl(fm, u.value.s)) ==> r.value.fields["url"] == JStr(PlaceholderUrl))
  {
    if job.JNull? then Err(TypeError)
    else
      var d := Prop(job, "description");
      var u := Prop(job, "url");
      var description := if d.Some? && d.value.JStr? then d.value else JStr("");
      var url := if u.Some? && u.value.JStr? && IsValidUrl(fm, u.value.s) then u.value else JStr(PlaceholderUrl);
      Ok(JObj(Spread(job)["description" := description]["url" := url]))
  }

  /**
   * `fixJobDetails(arr)`: every job repaired, in order; a null job makes
   * the whole map throw.
   */
  function FixJobDetails(fm: Formats, arr: seq<Json>): (r: Result<seq<Json>>)
    ensures r.Err? <==> exists i :: 0 <= i < |arr| && arr[i].JNull?
    ensures r.Err? ==> r.error == TypeError
    ensures r.Ok? ==> |r.value| == |arr| && forall i :: 0 <= i < |arr| ==> FixJob(fm, arr[i]) == Ok(r.value[i])
  {
    if arr == [] then Ok([])
    else
      match FixJob(fm, arr[0])
      case Err(e) => Err(e)
      case Ok(job) => (
        match FixJobDetails(fm, arr[1..])
        case Err(e) =>
          assert exists i :: 0 <= i < |arr[1..]| && arr[1..][i].JNull?;
          Err(e)
        case Ok(rest) =>
          assert forall i :: 1 <= i < |arr| ==> arr[i] == arr[1..][i - 1];
          Ok([job] + rest))
  }

  // ---------------------------------------------------------------------
  // Repairing the buckets

  /**
   * `if (finalResult[key]) finalResult[key] = fixJobDetails(finalResult[key])`:
   * a truthy bucket is repaired, and one that is not an array has no
   * `map` (a TypeError); any other value passes unchanged.
   */
  function RepairBucket(fm: Formats, v: Json, key: string): (r: Result<Json>)
    ensures r.Err? <==>
              v.JNull?
              || (v.JObj? && key in v.fields && Truthy(v.fields[key])
                  && (!v.fields[key].JArr? || FixJobDetails(fm, v.fields[key].items).Err?))
    ensures r.Err? ==> r.error == TypeError
    ensures r.Ok? && v.JObj? && key in v.fields && Truthy(v.fields[key]) ==>
              r.value == JObj(v.fields[key := JArr(FixJobDetails(fm, v.fields[key].items).value)])
    ensures r.Ok? && !(v.JObj? && key in v.fields && Truthy(v.fields[key])) ==> r.value == v
  {
    match Get(v, key)
    case Err(e) => Err(e)
    case Ok(None) => Ok(v)
    case Ok(Some(bucket)) =>
      if !Truthy(bucket) then Ok(v)
      else if !bucket.JArr? then Err(TypeError)
      else
        match FixJobDetails(fm, bucket.items)
        case Err(e) => Err(e)
        case Ok(jobs) => Ok(JObj(v.fields[key := JArr(jobs)]))
  }

  /** The three repairs in order; the first TypeError ends the request. */
  function Repair(fm: Formats, v: Json): Result<Json> {
    match RepairBucket(fm, v, Buckets[0])
    case Err(e) => Err(e)
    case Ok(v1) =>
      match RepairBucket(fm, v1, Buckets[1])
      case Err(e) => Err(e)
      case Ok(v2) => RepairBucket(fm, v2, Buckets[2])
  }

  /** What follows the last model call: parse, repair, validate. */
  function Finish(fm: Formats, parsed: Option<Json>): Result<Json> {
    match parsed
    case None => Err(SyntaxError)
    case Some(v) =>
      match Repair(fm, v)
      case Err(e) => Err(e)
      case Ok(w) =>
        match Parse(fm, JobSearchOutputSchema, w)
        case None => Err(ZodError)
        case Some(out) => Ok(out)
  }

  // ---------------------------------------------------------------------
  // The request

  /** The result of a job search request and the external calls it made. */
  datatype JobRun = JobRun(result: Result<Json>, calls: seq<Call>)

  /** The ways a request can end, for the profile and primary roadmap read. */
  function JobSearchOutcome(env: Env, profile: Option<map<string, Json>>, roadmap: Option<RoadmapDoc>, query: string): JobRun {
    var p := ProfileJson(profile);
    var synthesis := SynthesisPrompt(p, roadmap);
    var c0 := [ReadProfile, ReadPrimaryRoadmap] + [InvokeModel(synthesis)];
    match env.llm(synthesis)
    case Err(e) => JobRun(Err(e), c0)
    case Ok(summary) =>
      var c1 := c0 + [InvokeModel(QueryPrompt(summary, query))];
      match env.llm(QueryPrompt(summary, query))
      case Err(e) => JobRun(Err(e), c1)
      case Ok(generated) =>
        var c2 := c1 + [SearchJobs(generated)];
        match env.searchJobs(generated)
        case Err(e) => JobRun(Err(e), c2)
        case Ok(listings) =>
          var c3 := c2 + [InvokeModel(PersonalizationPrompt(p, listings))];
          match env.llm(PersonalizationPrompt(p, listings))
          case Err(e) => JobRun(Err(e), c3)
          case Ok(text) => JobRun(Finish(env.formats, env.parseJson(CleanJsonResponse(text))), c3)
  }

  /**
   * `findPersonalizedJobs(userId, query)`. `primary` is the roadmap
   * `getPrimaryRoadmap` returned: the user's oldest, or none.
   */
  method FindPersonalizedJobs(users: ProfileStore, roadmaps: RoadmapStore, env: Env, userId: string, query: string)
    returns (r: Result<Json>, calls: seq<Call>, ghost primary: Option<RoadmapDoc>)
    ensures primary.None? <==> roadmaps.Docs(userId) == map[]
    ensures primary.Some? ==> IsOldest(roadmaps.Docs(userId), primary.value)
    ensures JobRun(r, calls) == JobSearchOutcome(env, users.GetUserProfile(userId), primary, query)
    ensures r.Ok? ==> Accepts(env.formats, JobSearchOutputSchema, r.value)
    ensures 3 <= |calls| <= 6 && calls[..2] == [ReadProfile, ReadPrimaryRoadmap]
  {
    var userProfile := users.GetUserProfile(userId);
    var roadmap := GetPrimaryRoadmap(roadmaps, userId);
    primary := roadmap;
    calls := [ReadProfile, ReadPrimaryRoadmap];

    var synthesisPrompt := SynthesisPrompt(ProfileJson(userProfile), roadmap);
    calls := calls + [InvokeModel(synthesisPrompt)];
    var synthesisResponse := env.llm(synthesisPrompt);
    if synthesisResponse.Err? {
      r := Err(synthesisResponse.error);
      return;
    }
    var professionalSummary := synthesisResponse.value;

    var queryGenPrompt := QueryPrompt(professionalSummary, query);
    calls := calls + [InvokeModel(queryGenPrompt)];
    var queryGenResponse := env.llm(queryGenPrompt);
    if queryGenResponse.Err? {
      r := Err(queryGenResponse.error);
      return;
    }
    var generatedQuery := queryGenResponse.value;

    calls := calls + [SearchJobs(generatedQuery)];
    var rawJobListings := env.searchJobs(generatedQuery);
    if rawJobListings.Err? {
      r := Err(rawJobListings.error);
      return;
    }

    var personalizationPrompt := PersonalizationPrompt(ProfileJson(userProfile), rawJobListings.value);
    calls := calls + [InvokeModel(personalizationPrompt)];
    var personalizationResponse := env.llm(personalizationPrompt);
    if personalizationResponse.Err? {
      r := Err(personalizationResponse.error);
      return;
    }
    var parsed := env.parseJson(CleanJsonResponse(personalizationResponse.value));
    if parsed.None? {
      r := Err(SyntaxError);
      return;
    }
    r := RepairAndValidate(env.formats, parsed.value);
    ResultAccepted(env, userProfile, roadmap, query);
  }

  /**
   * Lines 63-69 of `findPersonalizedJobs`: the buckets of `finalResult` are
   * overwritten one after the other, then the object is parsed.
   */
  method RepairAndValidate(fm: Formats, finalResult: Json) returns (r: Result<Json>)
    ensures r == Finish(fm, Some(finalResult))
  {
    var result := finalResult;
    var step := RepairBucket(fm, result, "passionRoles");
    if step.Err? {
      return Err(step.error);
    }
    result := step.value;
    step := RepairBucket(fm, result, "strengthRoles");
    if step.Err? {
      return Err(step.error);
    }
    result := step.value;
    step := RepairBucket(fm, result, "growthRoles");
    if step.Err? {
      return Err(step.error);
    }
    result := step.value;
    assert Repair(fm, finalResult) == Ok(result);

    var out := Parse(fm, JobSearchOutputSchema, result);
    if out.None? {
      return Err(ZodError);
    }
    r := Ok(out.value);
  }

  // ---------------------------------------------------------------------
  // Properties of the repair

  /** Given that the placeholder parses as a URL, repairing a repaired job changes nothing. */
  lemma FixJobIdempotent(fm: Formats, job: Json)
    requires IsValidUrl(fm, PlaceholderUrl) && FixJob(fm, job).Ok?
    ensures FixJob(fm, FixJob(fm, job).value) == FixJob(fm, job)
  {
    var j1 := FixJob(fm, job).value;
    var j2 := FixJob(fm, j1).value;
    assert j2.fields.Keys == j1.fields.Keys;
    assert j2.fields == j1.fields;
  }

  /** Given that the placeholder parses as a URL, `fixJobDetails` is idempotent. */
  lemma FixJobDetailsIdempotent(fm: Formats, arr: seq<Json>)
    requires IsValidUrl(fm, PlaceholderUrl) && FixJobDetails(fm, arr).Ok?
    ensures FixJobDetails(fm, FixJobDetails(fm, arr).value) == FixJobDetails(fm, arr)
  {
    var ys := FixJobDetails(fm, arr).value;
    forall i | 0 <= i < |ys| ensures FixJob(fm, ys[i]) == Ok(ys[i]) {
      FixJobIdempotent(fm, arr[i]);
    }
    var zs := FixJobDetails(fm, ys).value;
    assert zs == ys;
  }

  /**
   * A repaired object passes `JobDetailsSchema` exactly when the original
   * had string `title` and `company` and well-typed optional fields: the
   * repair fixes `description` and `url` and nothing else.
   */
  lemma FixedJobAccepted(fm: Formats, job: Json)
    requires IsValidUrl(fm, PlaceholderUrl) && job.JObj?
    ensures FixJob(fm, job).Ok?
    ensures Accepts(fm, JobDetailsSchema, FixJob(fm, job).value) <==>
              Has(job.fields, "title", IsString)
              && Has(job.fields, "company", IsString)
              && MayHave(job.fields, "location", IsString)
              && MayHave(job.fields, "personalizedFit", IsString)
              && MayHave(job.fields, "isSteppingStone", IsBool)
  {
    var fixed := FixJob(fm, job).value;
    JobDetailsAccepts(fm, fixed);
  }

  /**
   * The repair leaves every key other than the three buckets alone, and a
   * bucket that was absent or falsy stays as it was.
   */
  lemma RepairKeepsOthers(fm: Formats, v: Json, k: string)
    requires v.JObj? && Repair(fm, v).Ok?
    ensures Repair(fm, v).value.JObj?
    ensures Repair(fm, v).value.fields.Keys == v.fields.Keys
    ensures k in v.fields && (k !in Buckets || !Truthy(v.fields[k])) ==> Repair(fm, v).value.fields[k] == v.fields[k]
  {
    var v1 := RepairBucket(fm, v, Buckets[0]).value;
    var v2 := RepairBucket(fm, v1, Buckets[1]).value;
    var v3 := RepairBucket(fm, v2, Buckets[2]).value;
    assert v1.JObj? && v1.fields.Keys == v.fields.Keys;
    assert v2.JObj? && v2.fields.Keys == v.fields.Keys;
    if k in v.fields && (k !in Buckets || !Truthy(v.fields[k])) {
      assert v1.fields[k] == v.fields[k];
      assert v2.fields[k] == v.fields[k];
    }
  }

  /** A bucket that is truthy ends up as the list of its jobs, each repaired. */
  lemma RepairFixesBucket(fm: Formats, v: Json, i: nat)
    requires v.JObj? && Repair(fm, v).Ok? && i < |Buckets|
    requires Buckets[i] in v.fields && Truthy(v.fields[Buckets[i]])
    ensures v.fields[Buckets[i]].JArr? && FixJobDetails(fm, v.fields[Buckets[i]].items).Ok?
    ensures Repair(fm, v).value.fields[Buckets[i]] == JArr(FixJobDetails(fm, v.fields[Buckets[i]].items).value)
  {
    var key := Buckets[i];
    var v1 := RepairBucket(fm, v, Buckets[0]).value;
    var v2 := RepairBucket(fm, v1, Buckets[1]).value;
    assert v1.JObj? && v2.JObj?;
    if i == 0 {
      assert v1.fields[key] == JArr(FixJobDetails(fm, v.fields[key].items).value);
      assert !Truthy(JArr([])) || true;
      assert v2.fields[key] == v1.fields[key] by {
        if Buckets[1] in v1.fields && Truthy(v1.fields[Buckets[1]]) {
          assert v2 == JObj(v1.fields[Buckets[1] := JArr(FixJobDetails(fm, v1.fields[Buckets[1]].items).value)]);
        }
      }
    } else if i == 1 {
      assert v1.fields[key] == v.fields[key];
    } else {
      assert v1.fields[key] == v.fields[key];
      assert v2.fields[key] == v.fields[key];
    }
  }

  /**
   * A bucket that is missing or falsy is not repaired, and the final parse
   * then throws a ZodError.
   */
  lemma MissingBucketRejected(fm: Formats, v: Json, i: nat)
    requires v.JObj? && i < |Buckets| && (Buckets[i] !in v.fields || !Truthy(v.fields[Buckets[i]]))
    requires Repair(fm, v).Ok?
    ensures Finish(fm, Some(v)) == Err(ZodError)
  {
    var w := Repair(fm, v).value;
    RepairKeepsOthers(fm, v, Buckets[i]);
    BucketNeeded(fm, w, Buckets[i]);
  }

  lemma BucketNeeded(fm: Formats, w: Json, key: string)
    requires w.JObj? && key in Buckets && (key !in w.fields || !Truthy(w.fields[key]))
    ensures Parse(fm, JobSearchOutputSchema, w).None?
  {
    JobSearchOutputAccepts(fm, w);
    ParseSucceedsIffAccepts(fm, JobSearchOutputSchema, w);
  }

  /** What the request returns passes `JobSearchOutputSchema`: it is zod's stripped copy of the repaired object. */
  lemma ResultAccepted(env: Env, profile: Option<map<string, Json>>, roadmap: Option<RoadmapDoc>, query: string)
    ensures var run := JobSearchOutcome(env, profile, roadmap, query);
            run.result.Ok? ==> Accepts(env.formats, JobSearchOutputSchema, run.result.value)
  {
    var run := JobSearchOutcome(env, profile, roadmap, query);
    if run.result.Ok? {
      FinishAccepted(env.formats, run);
    }
  }

  lemma FinishAccepted(fm: Formats, run: JobRun)
    requires exists parsed :: Finish(fm, parsed) == run.result
    requires run.result.Ok?
    ensures Accepts(fm, JobSearchOutputSchema, run.result.value)
  {
    var parsed :| Finish(fm, parsed) == run.result;
    var w := Repair(fm, parsed.value).value;
    JobSearchOutputWellFormed();
    ParsedIsAccepted(fm, JobSearchOutputSchema, w);
  }

  // ---------------------------------------------------------------------
  // Properties of the call sequence

  /**
   * When every call succeeds, the calls are, in order: the profile, the
   * primary roadmap, the synthesis prompt, the query prompt with the
   * summary, the job search with the generated query, and the
   * personalization prompt with the listings.
   */
  lemma CallOrder(env: Env, profile: Option<map<string, Json>>, roadmap: Option<RoadmapDoc>, query: string,
                  summary: string, generated: string, listings: Json, text: string)
    requires env.llm(SynthesisPrompt(ProfileJson(profile), roadmap)) == Ok(summary)
    requires env.llm(QueryPrompt(summary, query)) == Ok(generated)
    requires env.searchJobs(generated) == Ok(listings)
    ensures JobSearchOutcome(env, profile, roadmap, query).calls ==
              [ReadProfile, ReadPrimaryRoadmap,
               InvokeModel(SynthesisPrompt(ProfileJson(profile), roadmap)),
               InvokeModel(QueryPrompt(summary, query)),
               SearchJobs(generated),
               InvokeModel(PersonalizationPrompt(ProfileJson(profile), listings))]
    ensures env.llm(PersonalizationPrompt(ProfileJson(profile), listings)) == Ok(text) ==>
              JobSearchOutcome(env, profile, roadmap, query).result == Finish(env.formats, env.parseJson(CleanJsonResponse(text)))
  {
  }

  /**
   * The first failing call ends the request with its error, and no later
   * call is made.
   */
  lemma FailureStops(env: Env, profile: Option<map<string, Json>>, roadmap: Option<RoadmapDoc>, query: string,
                     summary: string, generated: string, listings: Json)
    ensures var run := JobSearchOutcome(env, profile, roadmap, query);
            var s := SynthesisPrompt(ProfileJson(profile), roadmap);
            env.llm(s).Err? ==> run == JobRun(Err(env.llm(s).error), [ReadProfile, ReadPrimaryRoadmap, InvokeModel(s)])
    ensures var run := JobSearchOutcome(env, profile, roadmap, query);
            var s := SynthesisPrompt(ProfileJson(profile), roadmap);
            var q := QueryPrompt(summary, query);
            env.llm(s) == Ok(summary) && env.llm(q).Err? ==>
              run == JobRun(Err(env.llm(q).error), [ReadProfile, ReadPrimaryRoadmap, InvokeModel(s), InvokeModel(q)])
    ensures var run := JobSearchOutcome(env, profile, roadmap, query);
            var s := SynthesisPrompt(ProfileJson(profile), roadmap);
            var q := QueryPrompt(summary, query);
            env.llm(s) == Ok(summary) && env.llm(q) == Ok(generated) && env.searchJobs(generated).Err? ==>
              run == JobRun(Err(env.searchJobs(generated).error),
                            [ReadProfile, ReadPrimaryRoadmap, InvokeModel(s), InvokeModel(q), SearchJobs(generated)])
    ensures var run := JobSearchOutcome(env, profile, roadmap, query);
            var s := SynthesisPrompt(ProfileJson(profile), roadmap);
            var q := QueryPrompt(summary, query);
            var pp := PersonalizationPrompt(ProfileJson(profile), listings);
            env.llm(s) == Ok(summary) && env.llm(q) == Ok(generated) && env.searchJobs(generated) == Ok(listings)
            && env.llm(pp).Err? ==>
              run == JobRun(Err(env.llm(pp).error),
                            [ReadProfile, ReadPrimaryRoadmap, InvokeModel(s), InvokeModel(q), SearchJobs(generated),
                             InvokeModel(pp)])
  {
  }

  /** A personalization reply that does not parse throws a SyntaxError, and one that parses to null a TypeError. */
  lemma UnparsedReply(fm: Formats)
    ensures Finish(fm, None) == Err(SyntaxError)
    ensures Finish(fm, Some(JNull)) == Err(TypeError)
  {
  }
}
