/**
 * The zod schemas of the backend, as data, with the two things zod does
 * with a schema: `safeParse(...).success` (`Accepts`) and `parse`
 * (`Parse`, which returns the value with every key the schema does not
 * name stripped from every object).
 *
 * `z.object` is not strict: keys the schema does not name are accepted and
 * dropped, not rejected. `.optional()` means the key may be absent (JSON has
 * no `undefined`, and `null` is not accepted). The `url` and `uuid` string
 * formats are abstract predicates: `isUrl` stands for the URL parser of the
 * WHATWG URL Standard (section 4.4, URL parsing), which both `z.string().url()`
 * and `new URL(...)` run.
 */
module ZodSchemas {
  import opened Wrappers
  import opened Js

  /** The string formats zod checks with code this model does not contain. */
  datatype Formats = Formats(isUrl: string -> bool, isUuid: string -> bool)

  datatype Schema =
    | Str(minLength: nat)            // z.string(), z.string().min(n)
    | Url                            // z.string().url()
    | Uuid                           // z.string().uuid()
    | Bool                           // z.boolean()
    | Any                            // z.any()
    | Enum(options: seq<string>)     // z.enum([...])
    | Array(element: Schema)         // z.array(...)
    | Object(fields: seq<Field>)     // z.object({...})

  /** One key of a `z.object` shape; `optional` is `.optional()`. */
  datatype Field = Field(key: string, schema: Schema, optional: bool)

  // ---------------------------------------------------------------------
  // Validation

  /** `schema.safeParse(v).success`. */
  predicate Accepts(fm: Formats, s: Schema, v: Json)
    decreases s, 0
  {
    match s
    case Str(n) => v.JStr? && Utf16Length(v.s) >= n
    case Url => v.JStr? && fm.isUrl(v.s)
    case Uuid => v.JStr? && fm.isUuid(v.s)
    case Bool => v.JBool?
    case Any => true
    case Enum(options) => v.JStr? && v.s in options
    case Array(e) => v.JArr? && forall i :: 0 <= i < |v.items| ==> Accepts(fm, e, v.items[i])
    case Object(fs) => v.JObj? && forall i :: 0 <= i < |fs| ==> FieldOk(fm, fs[i], v.fields)
  }

  /** A key of a shape is satisfied: present and valid, or absent and optional. */
  predicate FieldOk(fm: Formats, f: Field, m: map<string, Json>)
    decreases f
  {
    if f.key in m then Accepts(fm, f.schema, m[f.key]) else f.optional
  }

  /** The keys a shape names. */
  function Keys(fs: seq<Field>): set<string> {
    set i | 0 <= i < |fs| :: fs[i].key
  }

  predicate DistinctKeys(fs: seq<Field>) {
    forall i, j :: 0 <= i < j < |fs| ==> fs[i].key != fs[j].key
  }

  /** Every shape in the schema names each key once, as an object literal does. */
  predicate WellFormed(s: Schema)
    decreases s
  {
    match s
    case Array(e) => WellFormed(e)
    case Object(fs) => DistinctKeys(fs) && forall i :: 0 <= i < |fs| ==> WellFormed(fs[i].schema)
    case _ => true
  }

  // ---------------------------------------------------------------------
  // Parsing

  /** `schema.parse(v)`: the stripped value, or None where zod throws a ZodError. */
  function Parse(fm: Formats, s: Schema, v: Json): Option<Json>
    decreases s, 0
  {
    match s
    case Array(e) =>
      if !v.JArr? then None
      else (
        match ParseItems(fm, e, v.items)
        case None => None
        case Some(xs) => Some(JArr(xs)))
    case Object(fs) =>
      if !v.JObj? then None
      else (
        match ParseFields(fm, fs, v.fields)
        case None => None
        case Some(m) => Some(JObj(m)))
    case _ => if Accepts(fm, s, v) then Some(v) else None
  }

  /** The elements of an array, each parsed with the element schema. */
  function ParseItems(fm: Formats, e: Schema, items: seq<Json>): (r: Option<seq<Json>>)
    ensures r.Some? ==> |r.value| == |items|
    decreases e, 1, |items|
  {
    if items == [] then Some([])
    else
      match Parse(fm, e, items[0])
      case None => None
      case Some(x) => (
        match ParseItems(fm, e, items[1..])
        case None => None
        case Some(xs) => Some([x] + xs))
  }

  /** The keys of a shape that the object has, each parsed with its schema; other keys are dropped. */
  function ParseFields(fm: Formats, fs: seq<Field>, m: map<string, Json>): (r: Option<map<string, Json>>)
    ensures r.Some? ==> r.value.Keys == Keys(fs) * m.Keys
    decreases fs
  {
    if fs == [] then Some(map[])
    else
      var f := fs[0];
      assert Keys(fs) == {f.key} + Keys(fs[1..]) by {
        forall k | k in Keys(fs) ensures k in {f.key} + Keys(fs[1..]) {
          var i :| 0 <= i < |fs| && fs[i].key == k;
          if i > 0 { assert fs[1..][i - 1].key == k; }
        }
        forall k | k in Keys(fs[1..]) ensures k in Keys(fs) {
          var i :| 0 <= i < |fs[1..]| && fs[1..][i].key == k;
          assert fs[i + 1].key == k;
        }
      }
      match ParseFields(fm, fs[1..], m)
      case None => None
      case Some(rest) =>
        if f.key in m then (
          match Parse(fm, f.schema, m[f.key])
          case None => None
          case Some(x) => Some(rest[f.key := x]))
        else if f.optional then Some(rest)
        else None
  }

  // ---------------------------------------------------------------------
  // Parsing succeeds exactly on accepted values

  lemma {:induction false} ParseSucceedsIffAccepts(fm: Formats, s: Schema, v: Json)
    ensures Parse(fm, s, v).Some? <==> Accepts(fm, s, v)
    decreases s, 0
  {
    match s
    case Array(e) =>
      if v.JArr? { ItemsSucceedIffAccepted(fm, e, v.items); }
    case Object(fs) =>
      if v.JObj? { FieldsSucceedIffAccepted(fm, fs, v.fields); }
    case _ =>
  }

  lemma {:induction false} ItemsSucceedIffAccepted(fm: Formats, e: Schema, items: seq<Json>)
    ensures ParseItems(fm, e, items).Some? <==> forall i :: 0 <= i < |items| ==> Accepts(fm, e, items[i])
    decreases e, 1, |items|
  {
    if items != [] {
      ParseSucceedsIffAccepts(fm, e, items[0]);
      ItemsSucceedIffAccepted(fm, e, items[1..]);
      if forall i :: 0 <= i < |items[1..]| ==> Accepts(fm, e, items[1..][i]) {
        assert forall i :: 1 <= i < |items| ==> Accepts(fm, e, items[i]) by {
          forall i | 1 <= i < |items| ensures Accepts(fm, e, items[i]) {
            assert items[i] == items[1..][i - 1];
          }
        }
      }
    }
  }

  lemma {:induction false} FieldsSucceedIffAccepted(fm: Formats, fs: seq<Field>, m: map<string, Json>)
    ensures ParseFields(fm, fs, m).Some? <==> forall i :: 0 <= i < |fs| ==> FieldOk(fm, fs[i], m)
    decreases fs
  {
    if fs != [] {
      var f := fs[0];
      FieldsSucceedIffAccepted(fm, fs[1..], m);
      if f.key in m { ParseSucceedsIffAccepts(fm, f.schema, m[f.key]); }
      if forall i :: 0 <= i < |fs[1..]| ==> FieldOk(fm, fs[1..][i], m) {
        assert forall i :: 1 <= i < |fs| ==> FieldOk(fm, fs[i], m) by {
          forall i | 1 <= i < |fs| ensures FieldOk(fm, fs[i], m) {
            assert fs[i] == fs[1..][i - 1];
          }
        }
      }
    }
  }

  // ---------------------------------------------------------------------
  // Parsing is idempotent

  /** Keys a shape does not name have no influence on parsing with it. */
  lemma {:induction false} ParseFieldsIgnoresOtherKeys(fm: Formats, fs: seq<Field>, m: map<string, Json>, k: string, x: Json)
    requires k !in Keys(fs)
    ensures ParseFields(fm, fs, m[k := x]) == ParseFields(fm, fs, m)
    decreases fs
  {
    if fs != [] {
      assert fs[0].key in Keys(fs);
      assert Keys(fs[1..]) <= Keys(fs) by {
        forall j | j in Keys(fs[1..]) ensures j in Keys(fs) {
          var i :| 0 <= i < |fs[1..]| && fs[1..][i].key == j;
          assert fs[i + 1].key == j;
        }
      }
      ParseFieldsIgnoresOtherKeys(fm, fs[1..], m, k, x);
    }
  }

  lemma {:induction false} ParseIdempotent(fm: Formats, s: Schema, v: Json)
    requires WellFormed(s) && Parse(fm, s, v).Some?
    ensures Parse(fm, s, Parse(fm, s, v).value) == Parse(fm, s, v)
    decreases s, 0
  {
    match s
    case Array(e) => ItemsIdempotent(fm, e, v.items);
    case Object(fs) => FieldsIdempotent(fm, fs, v.fields);
    case _ =>
  }

  lemma {:induction false} ItemsIdempotent(fm: Formats, e: Schema, items: seq<Json>)
    requires WellFormed(e) && ParseItems(fm, e, items).Some?
    ensures ParseItems(fm, e, ParseItems(fm, e, items).value) == ParseItems(fm, e, items)
    decreases e, 1, |items|
  {
    if items != [] {
      var xs := ParseItems(fm, e, items).value;
      ParseIdempotent(fm, e, items[0]);
      ItemsIdempotent(fm, e, items[1..]);
      assert xs[0] == Parse(fm, e, items[0]).value;
      assert xs[1..] == ParseItems(fm, e, items[1..]).value;
    }
  }

  lemma {:induction false} FieldsIdempotent(fm: Formats, fs: seq<Field>, m: map<string, Json>)
    requires DistinctKeys(fs) && (forall i :: 0 <= i < |fs| ==> WellFormed(fs[i].schema))
    requires ParseFields(fm, fs, m).Some?
    ensures ParseFields(fm, fs, ParseFields(fm, fs, m).value) == ParseFields(fm, fs, m)
    decreases fs
  {
    if fs != [] {
      var f := fs[0];
      var rest := ParseFields(fm, fs[1..], m).value;
      var r := ParseFields(fm, fs, m).value;
      assert DistinctKeys(fs[1..]) by {
        forall i, j | 0 <= i < j < |fs[1..]| ensures fs[1..][i].key != fs[1..][j].key {
          assert fs[1..][i] == fs[i + 1] && fs[1..][j] == fs[j + 1];
        }
      }
      assert forall i :: 0 <= i < |fs[1..]| ==> WellFormed(fs[1..][i].schema) by {
        forall i | 0 <= i < |fs[1..]| ensures WellFormed(fs[1..][i].schema) {
          assert fs[1..][i] == fs[i + 1];
        }
      }
      FieldsIdempotent(fm, fs[1..], m);
      assert f.key !in Keys(fs[1..]);
      if f.key in m {
        var x := Parse(fm, f.schema, m[f.key]).value;
        assert r == rest[f.key := x];
        ParseFieldsIgnoresOtherKeys(fm, fs[1..], rest, f.key, x);
        assert WellFormed(fs[0].schema);
        ParseIdempotent(fm, f.schema, m[f.key]);
      } else {
        assert r == rest;
      }
    }
  }

  /** What `parse` returns is itself accepted. */
  lemma ParsedIsAccepted(fm: Formats, s: Schema, v: Json)
    requires WellFormed(s) && Parse(fm, s, v).Some?
    ensures Accepts(fm, s, Parse(fm, s, v).value)
  {
    ParseIdempotent(fm, s, v);
    ParseSucceedsIffAccepts(fm, s, Parse(fm, s, v).value);
  }

  /** `z.object` is not strict: a key the shape does not name changes neither acceptance nor the parsed value. */
  lemma ExtraKeyIgnored(fm: Formats, fs: seq<Field>, m: map<string, Json>, k: string, x: Json)
    requires k !in Keys(fs)
    ensures Accepts(fm, Object(fs), JObj(m[k := x])) <==> Accepts(fm, Object(fs), JObj(m))
    ensures Parse(fm, Object(fs), JObj(m[k := x])) == Parse(fm, Object(fs), JObj(m))
  {
    ParseFieldsIgnoresOtherKeys(fm, fs, m, k, x);
    ParseSucceedsIffAccepts(fm, Object(fs), JObj(m[k := x]));
    ParseSucceedsIffAccepts(fm, Object(fs), JObj(m));
  }

  predicate IsString(v: Json) { v.JStr? }

  predicate IsStringArray(v: Json) {
    v.JArr? && forall i :: 0 <= i < |v.items| ==> v.items[i].JStr?
  }

  /** An array of strings parses to itself. */
  lemma {:induction false} StringItemsParsed(fm: Formats, items: seq<Json>)
    requires forall i :: 0 <= i < |items| ==> items[i].JStr?
    ensures ParseItems(fm, Str(0), items) == Some(items)
    decreases |items|
  {
    if items != [] {
      assert forall i :: 0 <= i < |items[1..]| ==> items[1..][i].JStr?;
      StringItemsParsed(fm, items[1..]);
      assert [items[0]] + items[1..] == items;
    }
  }

  /** Each key of the shape that the object has is kept, holding its own parsed value. */
  lemma {:induction false} ParsedField(fm: Formats, fs: seq<Field>, m: map<string, Json>, i: nat)
    requires DistinctKeys(fs) && i < |fs| && fs[i].key in m && ParseFields(fm, fs, m).Some?
    ensures Parse(fm, fs[i].schema, m[fs[i].key]).Some?
    ensures ParseFields(fm, fs, m).value[fs[i].key] == Parse(fm, fs[i].schema, m[fs[i].key]).value
    decreases fs
  {
    if i > 0 {
      assert DistinctKeys(fs[1..]) by {
        forall a, b | 0 <= a < b < |fs[1..]| ensures fs[1..][a].key != fs[1..][b].key {
          assert fs[1..][a] == fs[a + 1] && fs[1..][b] == fs[b + 1];
        }
      }
      assert fs[1..][i - 1] == fs[i];
      ParsedField(fm, fs[1..], m, i - 1);
      assert fs[0].key != fs[i].key;
    }
  }

  /** A required string-array key of an accepted object is kept by `parse`, unchanged. */
  lemma KeptStringArray(fm: Formats, fs: seq<Field>, m: map<string, Json>, i: nat)
    requires DistinctKeys(fs) && i < |fs| && fs[i].schema == StringArray && !fs[i].optional
    requires forall j :: 0 <= j < |fs| ==> FieldOk(fm, fs[j], m)
    ensures fs[i].key in m && IsStringArray(m[fs[i].key])
    ensures ParseFields(fm, fs, m).Some? && fs[i].key in ParseFields(fm, fs, m).value
    ensures ParseFields(fm, fs, m).value[fs[i].key] == m[fs[i].key]
  {
    assert FieldOk(fm, fs[i], m);
    StringArrayAccepts(fm, m[fs[i].key]);
    FieldsSucceedIffAccepted(fm, fs, m);
    ParsedField(fm, fs, m, i);
    StringItemsParsed(fm, m[fs[i].key].items);
  }

  /** An optional string key of an accepted object is kept by `parse` exactly when present, unchanged. */
  lemma KeptOptionalString(fm: Formats, fs: seq<Field>, m: map<string, Json>, i: nat)
    requires DistinctKeys(fs) && i < |fs| && fs[i].schema == Str(0)
    requires forall j :: 0 <= j < |fs| ==> FieldOk(fm, fs[j], m)
    ensures fs[i].key in m ==> m[fs[i].key].JStr?
    ensures ParseFields(fm, fs, m).Some?
    ensures fs[i].key in ParseFields(fm, fs, m).value <==> fs[i].key in m
    ensures fs[i].key in m ==> ParseFields(fm, fs, m).value[fs[i].key] == m[fs[i].key]
  {
    assert FieldOk(fm, fs[i], m);
    FieldsSucceedIffAccepted(fm, fs, m);
    assert fs[i].key in Keys(fs);
    if fs[i].key in m {
      ParsedField(fm, fs, m, i);
    }
  }

  // ---------------------------------------------------------------------
  // The schemas of zodSchemas.ts

  const StringArray: Schema := Array(Str(0))

  const IkigaiInputSchema: Schema := Object([
    Field("interests", StringArray, false),
    Field("skills", StringArray, false),
    Field("values", StringArray, false),
    Field("personalityType", Str(0), true),
    Field("location", Str(0), true),
    Field("goals", StringArray, true)])

  const IkigaiAlignmentSchema: Schema := Object([
    Field("love", Str(0), false),
    Field("goodAt", Str(0), false),
    Field("worldNeeds", Str(0), false),
    Field("paidFor", Str(0), false)])

  const CareerSchema: Schema := Object([
    Field("title", Str(0), false),
    Field("description", Str(0), false),
    Field("whyFit", Str(0), false),
    Field("ikigaiAlignment", IkigaiAlignmentSchema, false)])

  const SkillTypes: seq<string> := ["technical", "soft"]

  const SkillSchema: Schema := Object([
    Field("skill", Str(0), false),
    Field("type", Enum(SkillTypes), false)])

  const PhaseSchema: Schema := Object([
    Field("phase", Str(0), false),
    Field("tasks", StringArray, false)])

  const RecommendationOutputSchema: Schema := Object([
    Field("personalizedSummary", Str(0), false),
    Field("recommendedCareers", Array(CareerSchema), false),
    Field("skillDevelopmentPlan", Array(SkillSchema), false),
    Field("roadmap90Days", Array(PhaseSchema), false)])

  const ChatRoles: seq<string> := ["user", "ai"]

  const ChatMessageSchema: Schema := Object([
    Field("role", Enum(ChatRoles), false),
    Field("content", Str(0), false),
    Field("createdAt", Any, true)])

  const ChatInputSchema: Schema := Object([Field("content", Str(1), false)])

  const WorkExperienceSchema: Schema := Object([
    Field("id", Uuid, true),
    Field("role", Str(0), false),
    Field("company", Str(0), false),
    Field("startDate", Str(0), false),
    Field("endDate", Str(0), true),
    Field("description", Str(0), true)])

  const EducationSchema: Schema := Object([
    Field("id", Uuid, true),
    Field("institution", Str(0), false),
    Field("degree", Str(0), false),
    Field("fieldOfStudy", Str(0), true),
    Field("graduationDate", Str(0), false)])

  const WorkModels: seq<string> := ["Remote", "Hybrid", "On-site"]

  const JobPreferencesSchema: Schema := Object([
    Field("jobTitles", StringArray, true),
    Field("workModels", Array(Enum(WorkModels)), true),
    Field("targetIndustries", StringArray, true)])

  const LinksSchema: Schema := Object([
    Field("linkedin", Url, true),
    Field("github", Url, true),
    Field("portfolio", Url, true)])

  const UserProfileSchema: Schema := Object([
    Field("fullName", Str(0), true),
    Field("headline", Str(0), true),
    Field("location", Str(0), true),
    Field("summary", Str(0), true),
    Field("profilePictureUrl", Url, true),
    Field("resumePath", Str(0), true),
    Field("skills", StringArray, true),
    Field("workExperience", Array(WorkExperienceSchema), true),
    Field("education", Array(EducationSchema), true),
    Field("careerGoals", Str(0), true),
    Field("jobPreferences", JobPreferencesSchema, true),
    Field("links", LinksSchema, true)])

  const JobDetailsSchema: Schema := Object([
    Field("title", Str(0), false),
    Field("company", Str(0), false),
    Field("location", Str(0), true),
    Field("description", Str(0), false),
    Field("url", Url, false),
    Field("personalizedFit", Str(0), true),
    Field("isSteppingStone", Bool, true)])

  const JobSearchOutputSchema: Schema := Object([
    Field("passionRoles", Array(JobDetailsSchema), false),
    Field("strengthRoles", Array(JobDetailsSchema), false),
    Field("growthRoles", Array(JobDetailsSchema), false)])

  const RoadmapUpdateSchema: Schema := Object([
    Field("task", Str(0), false),
    Field("isCompleted", Bool, false)])

  // ---------------------------------------------------------------------
  // What each schema accepts, stated directly on JSON values


  /** The key is present and its value satisfies `p`. */
  predicate Has(m: map<string, Json>, k: string, p: Json -> bool) {
    k in m && p(m[k])
  }

  /** If the key is present, its value satisfies `p`. */
  predicate MayHave(m: map<string, Json>, k: string, p: Json -> bool) {
    k in m ==> p(m[k])
  }

  lemma StringArrayAccepts(fm: Formats, v: Json)
    ensures Accepts(fm, StringArray, v) <==> IsStringArray(v)
  {
  }

  /** `IkigaiInputSchema`: three string arrays, two optional strings and an optional string array. */
  lemma IkigaiInputAccepts(fm: Formats, v: Json)
    ensures Accepts(fm, IkigaiInputSchema, v) <==>
              v.JObj?
              && Has(v.fields, "interests", IsStringArray)
              && Has(v.fields, "skills", IsStringArray)
              && Has(v.fields, "values", IsStringArray)
              && MayHave(v.fields, "personalityType", IsString)
              && MayHave(v.fields, "location", IsString)
              && MayHave(v.fields, "goals", IsStringArray)
  {
    var fs := IkigaiInputSchema.fields;
    if v.JObj? {
      var m := v.fields;
      forall k | k in m ensures Accepts(fm, StringArray, m[k]) <==> IsStringArray(m[k]) {
        StringArrayAccepts(fm, m[k]);
      }
      assert (forall i :: 0 <= i < |fs| ==> FieldOk(fm, fs[i], m)) <==>
               FieldOk(fm, fs[0], m) && FieldOk(fm, fs[1], m) && FieldOk(fm, fs[2], m)
               && FieldOk(fm, fs[3], m) && FieldOk(fm, fs[4], m) && FieldOk(fm, fs[5], m);
    }
  }

  predicate IsSkillType(v: Json) { v == JStr("technical") || v == JStr("soft") }

  /** A skill-plan entry: a string skill and a type that is "technical" or "soft". */
  lemma SkillAccepts(fm: Formats, v: Json)
    ensures Accepts(fm, SkillSchema, v) <==>
              v.JObj? && Has(v.fields, "skill", IsString) && Has(v.fields, "type", IsSkillType)
  {
    var fs := SkillSchema.fields;
    if v.JObj? {
      assert (forall i :: 0 <= i < |fs| ==> FieldOk(fm, fs[i], v.fields)) <==>
               FieldOk(fm, fs[0], v.fields) && FieldOk(fm, fs[1], v.fields);
    }
  }

  predicate IsAlignment(v: Json) {
    v.JObj? && Has(v.fields, "love", IsString) && Has(v.fields, "goodAt", IsString)
    && Has(v.fields, "worldNeeds", IsString) && Has(v.fields, "paidFor", IsString)
  }

  lemma AlignmentAccepts(fm: Formats, v: Json)
    ensures Accepts(fm, IkigaiAlignmentSchema, v) <==> IsAlignment(v)
  {
    var fs := IkigaiAlignmentSchema.fields;
    if v.JObj? {
      assert (forall i :: 0 <= i < |fs| ==> FieldOk(fm, fs[i], v.fields)) <==>
               FieldOk(fm, fs[0], v.fields) && FieldOk(fm, fs[1], v.fields)
               && FieldOk(fm, fs[2], v.fields) && FieldOk(fm, fs[3], v.fields);
    }
  }

  predicate IsCareer(v: Json) {
    v.JObj? && Has(v.fields, "title", IsString) && Has(v.fields, "description", IsString)
    && Has(v.fields, "whyFit", IsString) && Has(v.fields, "ikigaiAlignment", IsAlignment)
  }

  /** A recommended career: title, description, whyFit and a four-string ikigaiAlignment. */
  lemma CareerAccepts(fm: Formats, v: Json)
    ensures Accepts(fm, CareerSchema, v) <==> IsCareer(v)
  {
    var fs := CareerSchema.fields;
    if v.JObj? {
      if "ikigaiAlignment" in v.fields { AlignmentAccepts(fm, v.fields["ikigaiAlignment"]); }
      assert (forall i :: 0 <= i < |fs| ==> FieldOk(fm, fs[i], v.fields)) <==>
               FieldOk(fm, fs[0], v.fields) && FieldOk(fm, fs[1], v.fields)
               && FieldOk(fm, fs[2], v.fields) && FieldOk(fm, fs[3], v.fields);
    }
  }

  predicate IsPhase(v: Json) {
    v.JObj? && Has(v.fields, "phase", IsString) && Has(v.fields, "tasks", IsStringArray)
  }

  /** A roadmap phase: a string phase and a list of string tasks. */
  lemma PhaseAccepts(fm: Formats, v: Json)
    ensures Accepts(fm, PhaseSchema, v) <==> IsPhase(v)
  {
    var fs := PhaseSchema.fields;
    if v.JObj? {
      if "tasks" in v.fields { StringArrayAccepts(fm, v.fields["tasks"]); }
      assert (forall i :: 0 <= i < |fs| ==> FieldOk(fm, fs[i], v.fields)) <==>
               FieldOk(fm, fs[0], v.fields) && FieldOk(fm, fs[1], v.fields);
    }
  }

  predicate IsSkill(v: Json) {
    v.JObj? && Has(v.fields, "skill", IsString) && Has(v.fields, "type", IsSkillType)
  }

  predicate IsCareerList(v: Json) { v.JArr? && forall i :: 0 <= i < |v.items| ==> IsCareer(v.items[i]) }
  predicate IsSkillList(v: Json) { v.JArr? && forall i :: 0 <= i < |v.items| ==> IsSkill(v.items[i]) }
  predicate IsPhaseList(v: Json) { v.JArr? && forall i :: 0 <= i < |v.items| ==> IsPhase(v.items[i]) }

  lemma CareerListAccepts(fm: Formats, v: Json)
    ensures Accepts(fm, Array(CareerSchema), v) <==> IsCareerList(v)
  {
    if v.JArr? {
      forall i | 0 <= i < |v.items| ensures Accepts(fm, CareerSchema, v.items[i]) <==> IsCareer(v.items[i]) {
        CareerAccepts(fm, v.items[i]);
      }
    }
  }

  lemma SkillListAccepts(fm: Formats, v: Json)
    ensures Accepts(fm, Array(SkillSchema), v) <==> IsSkillList(v)
  {
    if v.JArr? {
      forall i | 0 <= i < |v.items| ensures Accepts(fm, SkillSchema, v.items[i]) <==> IsSkill(v.items[i]) {
        SkillAccepts(fm, v.items[i]);
      }
    }
  }

  lemma PhaseListAccepts(fm: Formats, v: Json)
    ensures Accepts(fm, Array(PhaseSchema), v) <==> IsPhaseList(v)
  {
    if v.JArr? {
      forall i | 0 <= i < |v.items| ensures Accepts(fm, PhaseSchema, v.items[i]) <==> IsPhase(v.items[i]) {
        PhaseAccepts(fm, v.items[i]);
      }
    }
  }

  lemma FourFields(fm: Formats, fs: seq<Field>, m: map<string, Json>)
    requires |fs| == 4
    ensures (forall i :: 0 <= i < |fs| ==> FieldOk(fm, fs[i], m)) <==>
              FieldOk(fm, fs[0], m) && FieldOk(fm, fs[1], m) && FieldOk(fm, fs[2], m) && FieldOk(fm, fs[3], m)
  {
  }

  /** `RecommendationOutputSchema`: a summary string and the three lists, every entry complete. */
  lemma RecommendationOutputAccepts(fm: Formats, v: Json)
    ensures Accepts(fm, RecommendationOutputSchema, v) <==>
              v.JObj?
              && Has(v.fields, "personalizedSummary", IsString)
              && Has(v.fields, "recommendedCareers", IsCareerList)
              && Has(v.fields, "skillDevelopmentPlan", IsSkillList)
              && Has(v.fields, "roadmap90Days", IsPhaseList)
  {
    if v.JObj? {
      var m := v.fields;
      if "recommendedCareers" in m { CareerListAccepts(fm, m["recommendedCareers"]); }
      if "skillDevelopmentPlan" in m { SkillListAccepts(fm, m["skillDevelopmentPlan"]); }
      if "roadmap90Days" in m { PhaseListAccepts(fm, m["roadmap90Days"]); }
      FourFields(fm, RecommendationOutputSchema.fields, m);
    }
  }

  predicate IsChatRole(v: Json) { v == JStr("user") || v == JStr("ai") }

  /** `ChatMessageSchema`: role "user" or "ai", string content, anything or nothing as createdAt. */
  lemma ChatMessageAccepts(fm: Formats, v: Json)
    ensures Accepts(fm, ChatMessageSchema, v) <==>
              v.JObj? && Has(v.fields, "role", IsChatRole) && Has(v.fields, "content", IsString)
  {
    var fs := ChatMessageSchema.fields;
    if v.JObj? {
      assert (forall i :: 0 <= i < |fs| ==> FieldOk(fm, fs[i], v.fields)) <==>
               FieldOk(fm, fs[0], v.fields) && FieldOk(fm, fs[1], v.fields) && FieldOk(fm, fs[2], v.fields);
    }
  }

  predicate IsNonEmptyString(v: Json) { v.JStr? && v.s != "" }

  /** `ChatInputSchema`: content is a string of at least one character. */
  lemma ChatInputAccepts(fm: Formats, v: Json)
    ensures Accepts(fm, ChatInputSchema, v) <==> v.JObj? && Has(v.fields, "content", IsNonEmptyString)
  {
    var fs := ChatInputSchema.fields;
    if v.JObj? {
      assert (forall i :: 0 <= i < |fs| ==> FieldOk(fm, fs[i], v.fields)) <==> FieldOk(fm, fs[0], v.fields);
      if "content" in v.fields && v.fields["content"].JStr? {
        var c := v.fields["content"].s;
        assert c != "" ==> Utf16Length(c) >= 1;
        assert c == "" ==> Utf16Length(c) == 0;
      }
    }
  }

  predicate IsBool(v: Json) { v.JBool? }

  /** The value is a string that parses as a URL. */
  predicate IsUrlString(fm: Formats, v: Json) { v.JStr? && fm.isUrl(v.s) }

  /** `JobDetailsSchema`: title, company and description strings, a URL, and three optional fields. */
  lemma JobDetailsAccepts(fm: Formats, v: Json)
    ensures Accepts(fm, JobDetailsSchema, v) <==>
              v.JObj?
              && Has(v.fields, "title", IsString)
              && Has(v.fields, "company", IsString)
              && MayHave(v.fields, "location", IsString)
              && Has(v.fields, "description", IsString)
              && "url" in v.fields && IsUrlString(fm, v.fields["url"])
              && MayHave(v.fields, "personalizedFit", IsString)
              && MayHave(v.fields, "isSteppingStone", IsBool)
  {
    var fs := JobDetailsSchema.fields;
    if v.JObj? {
      var m := v.fields;
      assert (forall i :: 0 <= i < |fs| ==> FieldOk(fm, fs[i], m)) <==>
               FieldOk(fm, fs[0], m) && FieldOk(fm, fs[1], m) && FieldOk(fm, fs[2], m)
               && FieldOk(fm, fs[3], m) && FieldOk(fm, fs[4], m) && FieldOk(fm, fs[5], m)
               && FieldOk(fm, fs[6], m);
    }
  }

  /** An array whose every element passes `JobDetailsSchema`. */
  predicate IsJobList(fm: Formats, v: Json) {
    v.JArr? && forall i :: 0 <= i < |v.items| ==> Accepts(fm, JobDetailsSchema, v.items[i])
  }

  /** `JobSearchOutputSchema`: all three buckets present, each a list of valid jobs. */
  lemma JobSearchOutputAccepts(fm: Formats, v: Json)
    ensures Accepts(fm, JobSearchOutputSchema, v) <==>
              v.JObj?
              && "passionRoles" in v.fields && IsJobList(fm, v.fields["passionRoles"])
              && "strengthRoles" in v.fields && IsJobList(fm, v.fields["strengthRoles"])
              && "growthRoles" in v.fields && IsJobList(fm, v.fields["growthRoles"])
  {
    var fs := JobSearchOutputSchema.fields;
    if v.JObj? {
      assert (forall i :: 0 <= i < |fs| ==> FieldOk(fm, fs[i], v.fields)) <==>
               FieldOk(fm, fs[0], v.fields) && FieldOk(fm, fs[1], v.fields) && FieldOk(fm, fs[2], v.fields);
    }
  }

  /** `RoadmapUpdateSchema`: a string task and a boolean isCompleted. */
  lemma RoadmapUpdateAccepts(fm: Formats, v: Json)
    ensures Accepts(fm, RoadmapUpdateSchema, v) <==>
              v.JObj? && Has(v.fields, "task", IsString) && Has(v.fields, "isCompleted", IsBool)
  {
    var fs := RoadmapUpdateSchema.fields;
    if v.JObj? {
      assert (forall i :: 0 <= i < |fs| ==> FieldOk(fm, fs[i], v.fields)) <==>
               FieldOk(fm, fs[0], v.fields) && FieldOk(fm, fs[1], v.fields);
    }
  }

  /** Every key of a profile is optional, so the empty object is a valid profile. */
  lemma EmptyProfileAccepted(fm: Formats)
    ensures Accepts(fm, UserProfileSchema, JObj(map[]))
  {
  }

  /** A profile picture, when given, must be a URL. */
  lemma ProfilePictureIsUrl(fm: Formats, v: Json)
    requires Accepts(fm, UserProfileSchema, v)
    ensures MayHave(v.fields, "profilePictureUrl", (u: Json) => IsUrlString(fm, u))
  {
    assert FieldOk(fm, UserProfileSchema.fields[4], v.fields);
  }

  /** Work-experience and education ids, when given, must be uuids. */
  lemma EntryIdIsUuid(fm: Formats, v: Json)
    ensures Accepts(fm, WorkExperienceSchema, v) ==> MayHave(v.fields, "id", (u: Json) => u.JStr? && fm.isUuid(u.s))
    ensures Accepts(fm, EducationSchema, v) ==> MayHave(v.fields, "id", (u: Json) => u.JStr? && fm.isUuid(u.s))
  {
    if Accepts(fm, WorkExperienceSchema, v) { assert FieldOk(fm, WorkExperienceSchema.fields[0], v.fields); }
    if Accepts(fm, EducationSchema, v) { assert FieldOk(fm, EducationSchema.fields[0], v.fields); }
  }

  /** Every work model must be one of "Remote", "Hybrid" and "On-site". */
  lemma WorkModelsEnum(fm: Formats, v: Json, i: nat)
    requires Accepts(fm, JobPreferencesSchema, v) && "workModels" in v.fields
    ensures v.fields["workModels"].JArr?
    ensures i < |v.fields["workModels"].items| ==> v.fields["workModels"].items[i] in [JStr("Remote"), JStr("Hybrid"), JStr("On-site")]
  {
    assert FieldOk(fm, JobPreferencesSchema.fields[1], v.fields);
  }

  // ---------------------------------------------------------------------
  // The shapes that the services parse are well formed

  lemma JobSearchOutputWellFormed()
    ensures WellFormed(JobDetailsSchema) && WellFormed(JobSearchOutputSchema)
  {
    assert WellFormed(JobDetailsSchema);
  }

  // ---------------------------------------------------------------------
  // The sample inputs of the test controller

  const IkigaiSample: Json := JObj(map[
    "interests" := JArr([JStr("AI"), JStr("Healthcare")]),
    "skills" := JArr([JStr("Python"), JStr("Data Analysis")]),
    "values" := JArr([JStr("Impact"), JStr("Growth")])])

  lemma IkigaiSampleAccepted(fm: Formats)
    ensures Accepts(fm, IkigaiInputSchema, IkigaiSample)
  {
    IkigaiInputAccepts(fm, IkigaiSample);
  }

  const JobSampleUrl: string := "https://careers.microsoft.com/"

  const JobSample: Json := JObj(map[
    "title" := JStr("Cloud Solutions Architect"),
    "company" := JStr("Microsoft"),
    "location" := JStr("Bangalore, India"),
    "description" := JStr("Design and implement cloud infrastructure for enterprise clients..."),
    "url" := JStr(JobSampleUrl)])

  /** The roadmap test's job passes `JobDetailsSchema` once its url is a URL. */
  lemma JobSampleAccepted(fm: Formats)
    requires fm.isUrl(JobSampleUrl)
    ensures Accepts(fm, JobDetailsSchema, JobSample)
  {
    JobDetailsAccepts(fm, JobSample);
  }
}
