/**
 * `getAiRecommendation`: the Ikigai answers are validated, a prompt is
 * built from them, the model's reply is cleaned and parsed, and the
 * parsed object is checked against the output schema before it is
 * returned. The two nodes of the little state flow are functions on a
 * state record; the entry point threads the state through them.
 */
module RecommendationService {
  import opened Wrappers
  import opened Js
  import opened ZodSchemas
  import opened JsonCleaning
  import opened Collaborators

  const NotValidJson: string := "AI response is not valid JSON"
  const ValidationFailed: string := "AI output validation failed"

  // ---------------------------------------------------------------------
  // The prompt

  /** `ikigaiData[key].join(", ")` on the validated input. */
  function ListLine(w: Json, key: string): string {
    if w.JObj? && key in w.fields && w.fields[key].JArr? then JoinValues(w.fields[key].items, ", ") else ""
  }

  /** The personality line is there only when `personalityType` is truthy. */
  function Personality(w: Json): (r: Option<string>)
    ensures r.Some? <==> w.JObj? && "personalityType" in w.fields && Truthy(w.fields["personalityType"])
  {
    if w.JObj? && "personalityType" in w.fields && Truthy(w.fields["personalityType"])
    then Some(ToJsString(w.fields["personalityType"]))
    else None
  }

  /** The values the recommendation prompt interpolates. */
  function RecPrompt(w: Json): Prompt {
    RecommendationPrompt(ListLine(w, "interests"), ListLine(w, "skills"), ListLine(w, "values"), Personality(w))
  }

  /** The texts of an array of strings. */
  function Texts(items: seq<Json>): (r: seq<string>)
    requires forall i :: 0 <= i < |items| ==> items[i].JStr?
    ensures |r| == |items| && forall i :: 0 <= i < |items| ==> r[i] == items[i].s
  {
    seq(|items|, i requires 0 <= i < |items| => items[i].s)
  }

  lemma ListKept(fm: Formats, fs: seq<Field>, v: Json, i: nat)
    requires DistinctKeys(fs) && i < |fs| && fs[i].schema == StringArray && !fs[i].optional
    requires Accepts(fm, Object(fs), v)
    ensures v.JObj? && fs[i].key in v.fields && IsStringArray(v.fields[fs[i].key])
    ensures Parse(fm, Object(fs), v).Some?
    ensures ListLine(Parse(fm, Object(fs), v).value, fs[i].key) == Join(Texts(v.fields[fs[i].key].items), ", ")
  {
    KeptStringArray(fm, fs, v.fields, i);
  }

  /**
   * For an accepted input, the prompt's interests (i = 0), skills (1) and
   * values (2) are the given strings joined by ", ".
   */
  lemma PromptLists(fm: Formats, v: Json, i: nat)
    requires Accepts(fm, IkigaiInputSchema, v) && i < 3
    ensures var key := IkigaiInputSchema.fields[i].key;
            v.JObj? && key in v.fields && IsStringArray(v.fields[key])
            && Parse(fm, IkigaiInputSchema, v).Some?
            && ListLine(Parse(fm, IkigaiInputSchema, v).value, key) == Join(Texts(v.fields[key].items), ", ")
  {
    assert DistinctKeys(IkigaiInputSchema.fields);
    ListKept(fm, IkigaiInputSchema.fields, v, i);
  }

  lemma PersonalityKept(fm: Formats, fs: seq<Field>, v: Json)
    requires DistinctKeys(fs) && |fs| > 3 && fs[3] == Field("personalityType", Str(0), true)
    requires Accepts(fm, Object(fs), v)
    ensures Parse(fm, Object(fs), v).Some?
    ensures var p := Personality(Parse(fm, Object(fs), v).value);
            v.JObj?
            && (p.Some? <==> "personalityType" in v.fields && v.fields["personalityType"] != JStr(""))
            && (p.Some? ==> JStr(p.value) == v.fields["personalityType"])
  {
    KeptOptionalString(fm, fs, v.fields, 3);
  }

  /** The prompt has a personality exactly when a non-empty `personalityType` was given, and it is that text. */
  lemma PromptPersonality(fm: Formats, v: Json)
    requires Accepts(fm, IkigaiInputSchema, v)
    ensures Parse(fm, IkigaiInputSchema, v).Some?
    ensures var p := Personality(Parse(fm, IkigaiInputSchema, v).value);
            v.JObj?
            && (p.Some? <==> "personalityType" in v.fields && v.fields["personalityType"] != JStr(""))
            && (p.Some? ==> JStr(p.value) == v.fields["personalityType"])
  {
    assert DistinctKeys(IkigaiInputSchema.fields);
    PersonalityKept(fm, IkigaiInputSchema.fields, v);
  }

  // ---------------------------------------------------------------------
  // The two nodes

  /** The state the nodes pass on; `aiResult` starts out absent. */
  datatype RecState = RecState(ikigaiData: Json, userId: string, aiResult: Option<Json>)

  /**
   * `generateRecommendationNode`: the model's reply, cleaned and parsed.
   * A model error propagates; a reply that is not JSON becomes the first
   * of the two messages.
   */
  function GenerateRecommendationNode(env: Env, s: RecState): (r: Result<RecState>)
    ensures r.Ok? ==> env.llm(RecPrompt(s.ikigaiData)).Ok? && r.value == s.(aiResult := env.parseJson(CleanJsonResponse(env.llm(RecPrompt(s.ikigaiData)).value)))
                      && r.value.aiResult.Some?
    ensures r.Err? <==> env.llm(RecPrompt(s.ikigaiData)).Err?
                        || env.parseJson(CleanJsonResponse(env.llm(RecPrompt(s.ikigaiData)).value)).None?
    ensures env.llm(RecPrompt(s.ikigaiData)).Err? ==> r == Err(env.llm(RecPrompt(s.ikigaiData)).error)
    ensures env.llm(RecPrompt(s.ikigaiData)).Ok? && r.Err? ==> r == Err(AppError(NotValidJson))
  {
    match env.llm(RecPrompt(s.ikigaiData))
    case Err(e) => Err(e)
    case Ok(text) =>
      match env.parseJson(CleanJsonResponse(text))
      case None => Err(AppError(NotValidJson))
      case Some(parsed) => Ok(s.(aiResult := Some(parsed)))
  }

  /** `validateOutputNode`: the state passes unchanged, or the second message is thrown. */
  function ValidateOutputNode(fm: Formats, s: RecState): (r: Result<RecState>)
    ensures r.Ok? <==> s.aiResult.Some? && Accepts(fm, RecommendationOutputSchema, s.aiResult.value)
    ensures r.Ok? ==> r.value == s
    ensures r.Err? ==> r.error == AppError(ValidationFailed)
  {
    if s.aiResult.Some? && Accepts(fm, RecommendationOutputSchema, s.aiResult.value) then Ok(s)
    else Err(AppError(ValidationFailed))
  }

  // ---------------------------------------------------------------------
  // The entry point

  /** The result of a recommendation request and the model calls it made. */
  datatype RecRun = RecRun(result: Result<Json>, calls: seq<Call>)

  /** The ways a request can end, read off the pipeline directly. */
  function RecommendationOutcome(env: Env, ikigaiData: Json): RecRun {
    match Parse(env.formats, IkigaiInputSchema, ikigaiData)
    case None => RecRun(Err(ZodError), [])
    case Some(w) =>
      var calls := [InvokeModel(RecPrompt(w))];
      match env.llm(RecPrompt(w))
      case Err(e) => RecRun(Err(e), calls)
      case Ok(text) =>
        match env.parseJson(CleanJsonResponse(text))
        case None => RecRun(Err(AppError(NotValidJson)), calls)
        case Some(j) =>
          if Accepts(env.formats, RecommendationOutputSchema, j) then RecRun(Ok(j), calls)
          else RecRun(Err(AppError(ValidationFailed)), calls)
  }

  /** `getAiRecommendation(ikigaiData, userId)`. */
  method GetAiRecommendation(env: Env, ikigaiData: Json, userId: string) returns (r: Result<Json>, calls: seq<Call>)
    ensures RecRun(r, calls) == RecommendationOutcome(env, ikigaiData)
  {
    calls := [];
    var validated := Parse(env.formats, IkigaiInputSchema, ikigaiData);
    if validated.None? {
      return Err(ZodError), calls;
    }
    var state := RecState(validated.value, userId, None);

    calls := calls + [InvokeModel(RecPrompt(state.ikigaiData))];
    var generated := GenerateRecommendationNode(env, state);
    if generated.Err? {
      return Err(generated.error), calls;
    }
    state := generated.value;

    var checked := ValidateOutputNode(env.formats, state);
    if checked.Err? {
      return Err(checked.error), calls;
    }
    state := checked.value;
    r := Ok(state.aiResult.value);
  }

  // ---------------------------------------------------------------------
  // Properties

  /** Input the schema rejects throws a ZodError before the model is called. */
  lemma InvalidInputNoCall(env: Env, ikigaiData: Json)
    ensures var run := RecommendationOutcome(env, ikigaiData);
            (!Accepts(env.formats, IkigaiInputSchema, ikigaiData) <==> run.calls == [])
            && (!Accepts(env.formats, IkigaiInputSchema, ikigaiData) ==> run.result == Err(ZodError))
  {
    ParseSucceedsIffAccepts(env.formats, IkigaiInputSchema, ikigaiData);
  }

  /**
   * Valid input leads to exactly one model call, with the prompt built
   * from the validated input; a model error propagates unchanged.
   */
  lemma ValidInputOneCall(env: Env, ikigaiData: Json)
    requires Accepts(env.formats, IkigaiInputSchema, ikigaiData)
    ensures var w := Parse(env.formats, IkigaiInputSchema, ikigaiData);
            var run := RecommendationOutcome(env, ikigaiData);
            w.Some? && run.calls == [InvokeModel(RecPrompt(w.value))]
            && (env.llm(RecPrompt(w.value)).Err? ==> run.result == Err(env.llm(RecPrompt(w.value)).error))
  {
    ParseSucceedsIffAccepts(env.formats, IkigaiInputSchema, ikigaiData);
  }

  /**
   * A reply that does not parse and a parsed reply that the output schema
   * rejects end in two different messages.
   */
  lemma TwoDistinctErrors(env: Env, ikigaiData: Json, text: string)
    requires Parse(env.formats, IkigaiInputSchema, ikigaiData).Some?
    requires env.llm(RecPrompt(Parse(env.formats, IkigaiInputSchema, ikigaiData).value)) == Ok(text)
    ensures var run := RecommendationOutcome(env, ikigaiData);
            (env.parseJson(CleanJsonResponse(text)).None? ==> run.result == Err(AppError(NotValidJson)))
            && (env.parseJson(CleanJsonResponse(text)).Some?
                && !Accepts(env.formats, RecommendationOutputSchema, env.parseJson(CleanJsonResponse(text)).value)
                ==> run.result == Err(AppError(ValidationFailed)))
  {
  }

  /** The two messages differ, so a caller can tell the failures apart. */
  lemma ErrorMessagesDiffer()
    ensures NotValidJson != ValidationFailed
  {
    assert NotValidJson[3] != ValidationFailed[3];
  }

  /**
   * A request succeeds exactly when the input is valid, the model answers,
   * the cleaned reply parses and passes the output schema; what it returns
   * is the parsed value itself, unstripped.
   */
  lemma SuccessIsParsedReply(env: Env, ikigaiData: Json)
    ensures var run := RecommendationOutcome(env, ikigaiData);
            var w := Parse(env.formats, IkigaiInputSchema, ikigaiData);
            run.result.Ok? <==>
              w.Some? && env.llm(RecPrompt(w.value)).Ok?
              && env.parseJson(CleanJsonResponse(env.llm(RecPrompt(w.value)).value)).Some?
              && Accepts(env.formats, RecommendationOutputSchema,
                         env.parseJson(CleanJsonResponse(env.llm(RecPrompt(w.value)).value)).value)
    ensures var run := RecommendationOutcome(env, ikigaiData);
            var w := Parse(env.formats, IkigaiInputSchema, ikigaiData);
            run.result.Ok? ==>
              run.result.value == env.parseJson(CleanJsonResponse(env.llm(RecPrompt(w.value)).value)).value
              && Accepts(env.formats, RecommendationOutputSchema, run.result.value)
  {
  }
}
