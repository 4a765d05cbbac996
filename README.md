# ikiAi core in Dafny

ikiAi is an Ikigai career-guidance web application. Its TypeScript backend runs four pipelines around a
generative language model: chat, career recommendation, job search and roadmap creation. Each pipeline
reads and writes Firestore documents, and chat also queries a vector store. A React frontend shows the
results. This project models the deterministic logic of that core and proves properties of the model.

- **Model-output normaliser** (`JsonCleaning`). `cleanJsonResponse` strips Markdown fences, trims, and
  cuts the text from the first `{` to the last `}`. One definition stands for the three identical copies
  in the recommendation, roadmap and job-search services.
- **Schemas** (`ZodSchemas`). Each zod schema is a value of a small schema datatype. `Accepts` is
  validation and `Parse` is zod's `parse`, which strips unknown keys. `z.object` is not strict, so extra
  keys are accepted.
- **Pipelines.**
  - `RecommendationService`: validate the input, then generate, parse and validate the output.
  - `RoadmapService`: generate, parse, save.
  - `JobSearchService`: three model calls, a job search, the repair pass and the final parse.
  - `ChatService`: the user turn is stored first, then the four-node graph runs (history, context, model,
    save).

  Each pipeline is a method over an environment of oracles: the language model, `JSON.parse`, the URL
  parser, the vector store and the job-search API. The method returns the trace of external calls it
  made. Its contract ties the result and the trace to a reference function, and lemmas state the
  properties of that function.
- **Stores** are classes holding maps.
  - `RoadmapStore`: `saveRoadmap`, and `updateTaskStatus` with array-union and array-remove.
  - `ChatStore`: append-only messages, `lastUpdatedAt` refresh, and ordered listings.
  - `ProfileStore`: merge-upsert, lookup, and the primary (oldest) roadmap.

  Firestore's server timestamp is a strictly increasing `clock` field.
- **Knowledge ingestion** (`KnowledgeService`): the MIME dispatch, the blank-line paragraph splitter, the
  length filter, and document building.
- **Auth middleware** (`VerifyAuth`): the `Bearer ` header check, token extraction and the three outcomes.
- **Frontend page logic.**
  - `RoadmapsPage`: progress percentage, phase grouping, and the request that toggles a task.
  - `JobSearchPage`: sections, counts, labels, and the saved-jobs set as a class.
  - `ProfilePage`: add and remove entries, and record an upload.
  - `ChatPage`: the chat page state as a class, with an optimistic send and rollback.
  - `HealthPage`: uptime formatting and status classes.

Shared modules:
- `Wrappers`: `Option`, `Result`, and the failure kinds.
- `Js`: a JSON value type and the JavaScript string operations used (`trim`, `indexOf`, `split`, `join`,
  number-to-string).
- `Collaborators`: prompts, turns, the oracle environment and the call trace.
- `Arith`: small division lemmas.

Where the code and its documented design differ, the model follows the code:
- The chat model call does not include the retrieved context.
- The roadmap pipeline saves the model's reply without a schema check.
- The second guard in `handleChatMessage` (chat.service.ts:167-169) can never fire, because `saveResponse`
  has already thrown on an empty reply.
- `JobSearchOutputSchema.parse` returns a copy with unknown keys stripped. The recommendation pipeline
  returns the parsed model output itself, because `safeParse`'s result is only inspected.

## Model

| member | source | states |
|---|---|---|
| JsonCleaning.CleanJsonResponse | backend/src/services/recommendation.service.ts:1-15 | the cleaned text is never longer than the input |
| JsonCleaning.CleanIsSlice | backend/src/services/recommendation.service.ts:1-15 | the output is a contiguous substring of the input (also for the copies at backend/src/services/roadmap.service.ts:1-15 and backend/dist/services/jobSearch.service.js:13-27) |
| JsonCleaning.ExtractBraces | backend/src/services/recommendation.service.ts:9-13 | the brace cut never lengthens its input |
| JsonCleaning.BraceCut | backend/src/services/recommendation.service.ts:9-13 | when some `{` precedes a `}`, the output is the slice starting at the first `{`: no `{` before it, no `}` after it |
| JsonCleaning.BraceSpan | backend/src/services/recommendation.service.ts:9-13 | when some `{` precedes a `}`, the output starts with `{` and ends with `}` |
| JsonCleaning.CleanBraced | backend/src/services/recommendation.service.ts:3-13 | if the fence-stripped text has a `{` before a `}`, the cleaned text is brace-delimited |
| JsonCleaning.IndicesGivePair | backend/src/services/recommendation.service.ts:11 | the code's index test (first `{` found, last `}` found, last after first) implies a brace pair |
| JsonCleaning.NoBracePair | backend/src/services/recommendation.service.ts:11-14 | without a `{` before a `}`, the output is the fence-stripped, trimmed text unchanged |
| JsonCleaning.BraceDelimitedFixed | backend/src/services/recommendation.service.ts:3-13 | a text that already starts with `{` and ends with `}` comes back unchanged |
| JsonCleaning.CleanIdempotentOnBraces | backend/src/services/roadmap.service.ts:1-15 | cleaning twice equals cleaning once whenever a brace pair survives fence stripping |
| JsonCleaning.JsonFenceRemoved | backend/src/services/recommendation.service.ts:3-13 | "```json\n" + J + "\n```" cleans to exactly J for a brace-delimited J |
| JsonCleaning.FenceBeforeNewlineKept | backend/src/services/recommendation.service.ts:6-7 | a closing fence followed by a newline is not removed by `/```$/`, because trimming runs after it; the brace cut still yields J |
| ZodSchemas.ParseSucceedsIffAccepts | backend/src/utils/zodSchemas.ts:1-129 | `parse` succeeds exactly on the values the schema accepts |
| ZodSchemas.ParseIdempotent | backend/src/utils/zodSchemas.ts:1-129 | parsing the output of a parse gives the same output |
| ZodSchemas.ParsedIsAccepted | backend/src/utils/zodSchemas.ts:1-129 | a parsed (key-stripped) value is itself accepted |
| ZodSchemas.ExtraKeyIgnored | backend/src/utils/zodSchemas.ts:4-11 | objects are non-strict: adding an undeclared key changes neither acceptance nor the parsed result |
| ZodSchemas.IkigaiInputAccepts | backend/src/utils/zodSchemas.ts:4-11 | accepted iff interests, skills and values are string arrays, personalityType and location are optional strings, and goals is an optional string array |
| ZodSchemas.SkillAccepts | backend/src/utils/zodSchemas.ts:29-34 | a skill-plan entry is accepted iff skill is a string and type is "technical" or "soft" |
| ZodSchemas.AlignmentAccepts | backend/src/utils/zodSchemas.ts:21-26 | the alignment object needs the four strings love, goodAt, worldNeeds and paidFor |
| ZodSchemas.CareerAccepts | backend/src/utils/zodSchemas.ts:17-27 | a career needs title, description, whyFit and an accepted alignment |
| ZodSchemas.PhaseAccepts | backend/src/utils/zodSchemas.ts:35-40 | a roadmap phase needs a string phase and a string array of tasks |
| ZodSchemas.RecommendationOutputAccepts | backend/src/utils/zodSchemas.ts:14-41 | accepted iff the summary is a string and the careers, skill plan and 90-day phases are arrays of accepted entries |
| ZodSchemas.ChatMessageAccepts | backend/src/utils/zodSchemas.ts:47-51 | role must be "user" or "ai" and content a string; createdAt may be anything |
| ZodSchemas.ChatInputAccepts | backend/src/utils/zodSchemas.ts:53-55 | content must be a non-empty string |
| ZodSchemas.JobDetailsAccepts | backend/src/utils/zodSchemas.ts:110-118 | title, company and description are strings, url passes the URL parser, location and personalizedFit are optional strings, and isSteppingStone is an optional boolean |
| ZodSchemas.JobSearchOutputAccepts | backend/src/utils/zodSchemas.ts:120-124 | all three buckets must be present as arrays of accepted jobs |
| ZodSchemas.RoadmapUpdateAccepts | backend/src/utils/zodSchemas.ts:126-129 | task must be a string and isCompleted a boolean |
| ZodSchemas.EmptyProfileAccepted | backend/src/utils/zodSchemas.ts:85-102 | every profile field is optional: the empty object is a profile |
| ZodSchemas.ProfilePictureIsUrl | backend/src/utils/zodSchemas.ts:90 | an accepted profile's picture, when present, passes the URL parser |
| ZodSchemas.EntryIdIsUuid | backend/src/utils/zodSchemas.ts:62-77 | a work-experience or education id, when present, is a UUID string |
| ZodSchemas.WorkModelsEnum | backend/src/utils/zodSchemas.ts:79-83 | every work model is one of "Remote", "Hybrid" and "On-site" |
| ZodSchemas.JobSearchOutputWellFormed | backend/src/utils/zodSchemas.ts:110-124 | the job schemas declare each key once, so their parse is idempotent |
| ZodSchemas.IkigaiSampleAccepted | backend/src/api/controllers/test.controller.ts:23-27 | the sample Ikigai input is accepted |
| ZodSchemas.JobSampleAccepted | backend/src/api/controllers/test.controller.ts:62-68 | the sample job is accepted when its URL parses |
| RecommendationService.PromptLists | backend/src/services/recommendation.service.ts:60-62 | for accepted input, the prompt's interests, skills and values lines are the input's strings joined by ", " |
| RecommendationService.PromptPersonality | backend/src/services/recommendation.service.ts:63 | the personality line appears iff personalityType is present and non-empty, and then it carries that value |
| RecommendationService.GenerateRecommendationNode | backend/src/services/recommendation.service.ts:36-89 | a model error propagates; unparseable cleaned text fails with "AI response is not valid JSON"; otherwise the parsed value becomes aiResult and nothing else changes |
| RecommendationService.ValidateOutputNode | backend/src/services/recommendation.service.ts:91-97 | passes, with the state unchanged, iff aiResult satisfies the output schema; otherwise fails with "AI output validation failed" |
| RecommendationService.GetAiRecommendation | backend/src/services/recommendation.service.ts:99-105 | the method's result and call trace equal the reference outcome of the three steps |
| RecommendationService.InvalidInputNoCall | backend/src/services/recommendation.service.ts:100-102 | the model is never called exactly when the input is rejected, and rejected input fails with ZodError |
| RecommendationService.ValidInputOneCall | backend/src/services/recommendation.service.ts:100-103 | accepted input makes exactly one model call, with the prompt built from the parsed input |
| RecommendationService.TwoDistinctErrors | backend/src/services/recommendation.service.ts:81-95 | an unparseable reply and a parsed reply that fails the schema give the two different errors |
| RecommendationService.ErrorMessagesDiffer | backend/src/services/recommendation.service.ts:85-94 | the two error messages are different strings |
| RecommendationService.SuccessIsParsedReply | backend/src/services/recommendation.service.ts:88-104 | success holds iff the input is accepted, the model answers, the reply parses and passes the schema; the result is then the parsed reply itself and satisfies the schema |
| RoadmapService.RoadmapRecord | backend/src/services/roadmap.service.ts:39-42 | the record holds jobDetails unchanged, and roadmap only when the reply defines roadmap90Days |
| RoadmapService.Created | backend/src/services/roadmap.service.ts:45 | the result is the record plus roadmapId |
| RoadmapService.CreateRoadmapForJob | backend/src/services/roadmap.service.ts:27-46 | on failure nothing is saved and the error propagates; on success saveRoadmap is the last call, exactly once, the store gains exactly that document, and the result is `{roadmapId, ...record}` |
| RoadmapService.SavedRecord | backend/src/services/roadmap.service.ts:37-42 | the saved record's jobDetails is the input and its roadmap is the reply's roadmap90Days, when the reply has one |
| RoadmapService.PromptCarriesProfile | backend/src/services/roadmap.service.ts:28-35 | the profile is read and then the model is called once with it; a missing profile is serialised as null, not an error |
| RoadmapService.ParseFailures | backend/src/services/roadmap.service.ts:37-41 | a parse failure propagates as SyntaxError, and a null reply as TypeError, before anything is saved |
| RoadmapService.UncheckedReplySaved | backend/src/services/roadmap.service.ts:37-44 | a reply without roadmap90Days still yields a saved record (holding only jobDetails) |
| RoadmapService.ModelErrorPropagates | backend/src/services/roadmap.service.ts:35 | a failed model call is the pipeline's error |
| JobSearchService.FixJob | backend/dist/services/jobSearch.service.js:56-62 | a job keeps all other fields; description is the original string or ""; url is the original when it is a string that parses, else the placeholder; a null job is a TypeError |
| JobSearchService.FixJobDetails | backend/dist/services/jobSearch.service.js:56-62 | the list keeps its length and order, and each element is its own job repaired; any null job fails the whole map |
| JobSearchService.FixJobIdempotent | backend/dist/services/jobSearch.service.js:56-62 | if the placeholder is a valid URL, repairing a repaired job changes nothing |
| JobSearchService.FixJobDetailsIdempotent | backend/dist/services/jobSearch.service.js:56-62 | if the placeholder is a valid URL, repairing a repaired list changes nothing |
| JobSearchService.FixedJobAccepted | backend/dist/services/jobSearch.service.js:56-62 | a repaired object job satisfies JobDetailsSchema iff its title, company and optional fields already had the right types |
| JobSearchService.RepairBucket | backend/dist/services/jobSearch.service.js:63-68 | only a truthy bucket is repaired, in place; a falsy or missing one is left as it was |
| JobSearchService.RepairKeepsOthers | backend/dist/services/jobSearch.service.js:63-68 | the repair keeps the key set, and every key other than a truthy bucket keeps its value |
| JobSearchService.RepairFixesBucket | backend/dist/services/jobSearch.service.js:63-68 | a truthy bucket becomes its repaired list |
| JobSearchService.MissingBucketRejected | backend/dist/services/jobSearch.service.js:63-69 | a missing or falsy bucket stays so and makes the final parse fail with ZodError |
| JobSearchService.RepairAndValidate | backend/dist/services/jobSearch.service.js:63-69 | the in-place repair of the three buckets followed by the parse gives the reference result |
| JobSearchService.FindPersonalizedJobs | backend/dist/services/jobSearch.service.js:28-70 | the primary roadmap read is the oldest one (or none); the result and call trace equal the reference outcome; the first two calls read the profile and the primary roadmap; a successful result satisfies JobSearchOutputSchema |
| JobSearchService.CallOrder | backend/dist/services/jobSearch.service.js:29-45 | the calls are: profile, primary roadmap, synthesis, query generation, search with the generated query, personalisation; the result is the cleaned, repaired and parsed reply |
| JobSearchService.FailureStops | backend/dist/services/jobSearch.service.js:33-45 | whichever of the four model and search calls fails first ends the run with its error, and the trace is exactly the calls up to and including it |
| JobSearchService.BucketNeeded | backend/src/utils/zodSchemas.ts:120-124 | a repaired reply missing one of the three buckets, or with it falsy, fails the final parse |
| JobSearchService.FinishAccepted | backend/dist/services/jobSearch.service.js:63-69 | whatever the repaired reply, a successful final step satisfies JobSearchOutputSchema |
| JobSearchService.ResultAccepted | backend/dist/services/jobSearch.service.js:69 | every successful result satisfies JobSearchOutputSchema |
| JobSearchService.UnparsedReply | backend/dist/services/jobSearch.service.js:45-63 | an unparseable reply is a SyntaxError, and a null reply a TypeError |
| RoadmapRepository.ArrayUnion | backend/src/data-access/roadmap.repository.ts:16-19 | the union holds the old elements first, in their order, plus the given task name, and grows by at most one |
| RoadmapRepository.ArrayRemove | backend/src/data-access/roadmap.repository.ts:20-23 | the result holds exactly the old elements other than the given task name |
| RoadmapRepository.UnionPresent | backend/src/data-access/roadmap.repository.ts:16-19 | marking appends an absent task and leaves the list unchanged if it is already present |
| RoadmapRepository.RemoveAbsent | backend/src/data-access/roadmap.repository.ts:20-23 | unmarking an absent task is a no-op |
| RoadmapRepository.UnionIdempotent | backend/src/data-access/roadmap.repository.ts:14-25 | marking twice equals marking once |
| RoadmapRepository.RemoveIdempotent | backend/src/data-access/roadmap.repository.ts:14-25 | unmarking twice equals unmarking once |
| RoadmapRepository.RemoveAppend | backend/src/data-access/roadmap.repository.ts:20-23 | removal keeps order: it distributes over concatenation |
| RoadmapRepository.MarkThenUnmark | backend/src/data-access/roadmap.repository.ts:14-25 | marking an absent task and then unmarking it restores the list |
| RoadmapRepository.UnionKeepsNoDuplicates | backend/src/data-access/roadmap.repository.ts:16-19 | a duplicate-free list stays duplicate-free after marking |
| RoadmapRepository.RemoveKeepsNoDuplicates | backend/src/data-access/roadmap.repository.ts:20-23 | a duplicate-free list stays duplicate-free after unmarking |
| RoadmapRepository.SetTasksKeeps | backend/src/data-access/roadmap.repository.ts:15-24 | replacing one roadmap's completedTasks keeps the store valid, and keeps every task list duplicate-free when the new one is |
| RoadmapRepository.RoadmapStore.SaveRoadmap | backend/src/data-access/roadmap.repository.ts:4-12 | the new document holds the input without createdAt and completedTasks, a fresh createdAt and `completedTasks = []`; nothing else changes |
| RoadmapRepository.RoadmapStore.UpdateTaskStatus | backend/src/data-access/roadmap.repository.ts:14-25 | a missing roadmap is NotFound with nothing changed; otherwise only that roadmap's completedTasks becomes the union or the removal |
| UserRepository.Merge | backend/src/data-access/user.repository.ts:7-9 | the merged document's keys are the supplied and the stored ones |
| UserRepository.MergeFields | backend/src/data-access/user.repository.ts:7-9 | supplied fields overwrite, unsupplied stored fields are kept, and a missing document becomes the supplied data |
| UserRepository.MergeIdempotent | backend/src/data-access/user.repository.ts:7-9 | upserting the same data twice equals upserting it once |
| UserRepository.ProfileStore.GetUserProfile | backend/src/data-access/user.repository.ts:11-17 | null for a missing document, the stored data otherwise |
| UserRepository.ProfileStore.UpsertUserProfile | backend/src/data-access/user.repository.ts:7-17 | only that user's document changes, to the merge; a later get returns every supplied field as supplied |
| UserRepository.GetPrimaryRoadmap | backend/src/data-access/user.repository.ts:20-27 | none iff the user has no roadmaps; otherwise one with the earliest createdAt |
| UserRepository.OldestUnique | backend/src/data-access/user.repository.ts:22 | with distinct timestamps, the oldest roadmap is unique |
| ChatRepository.ChatStore.AddMessageToSession | backend/src/data-access/chat.repository.ts:13-32 | appends exactly one message stamped with the clock and returns its id, and refreshes lastUpdatedAt by merge |
| ChatRepository.WithMessageEffect | backend/src/data-access/chat.repository.ts:18-29 | the session's list grows by that one message; the session exists afterwards and keeps its createdAt; its lastUpdatedAt is newer than every session's; other sessions are unchanged |
| ChatRepository.WithMessageValid | backend/src/data-access/chat.repository.ts:13-73 | an append keeps the store invariant: messages belong to existing sessions, are in ascending time order, and are older than their session's lastUpdatedAt |
| ChatRepository.ChatStore.GetSessionMessages | backend/src/data-access/chat.repository.ts:34-41 | the stored messages in ascending createdAt order, [] for an empty session |
| ChatRepository.ChatStore.GetUserSessions | backend/src/data-access/chat.repository.ts:43-59 | exactly the user's sessions, each once, with its lastUpdatedAt, in descending lastUpdatedAt order |
| ChatRepository.SortByTime | backend/src/data-access/chat.repository.ts:49 | the listing loop: the rows cover the ids exactly once, with their times, in descending order |
| ChatRepository.InsertKeepsDescending | backend/src/data-access/chat.repository.ts:49 | inserting at the first position with an older time keeps the listing descending |
| ChatRepository.ChatStore.CreateNewSession | backend/src/data-access/chat.repository.ts:61-73 | creates a session with createdAt and lastUpdatedAt both set to the clock and returns its id; messages are untouched |
| ChatService.HistoryOf | backend/src/services/chat.service.ts:28-30 | the history keeps length and order, one turn per message |
| ChatService.HumanIffUser | backend/src/services/chat.service.ts:28-30 | a turn is a human turn iff the role is "user" (every other role is an AI turn), and it carries the content |
| ChatService.HistoryAppend | backend/src/services/chat.service.ts:28-30 | the history of a concatenation is the concatenation of the histories |
| ChatService.ContextOf | backend/src/services/chat.service.ts:106-111 | the no-context sentinel for no documents, otherwise the texts joined by "\n\n---\n\n" |
| ChatService.ProfileSentinel | backend/src/services/chat.service.ts:40-70 | the profile context is the "No user profile found" sentinel iff the fetch failed or returned null |
| ChatService.NonArrayNotProvided | backend/src/services/chat.service.ts:47-49 | a missing or non-array list field renders as "Not provided" |
| ChatService.PreferencePart | backend/src/services/chat.service.ts:56-58 | a preference part is empty iff its field is not an array, otherwise it starts with its title |
| ChatService.NonEmpty | backend/src/services/chat.service.ts:59 | `filter(Boolean)` keeps exactly the non-empty parts |
| ChatService.NonEmptyAppend | backend/src/services/chat.service.ts:59 | `filter(Boolean)` keeps order and multiplicity: it distributes over concatenation |
| ChatService.NonEmptyThree | backend/src/services/chat.service.ts:53-59 | the kept preference parts come in source order: titles, then work models, then industries |
| ChatService.JobPreferencesNotProvided | backend/src/services/chat.service.ts:52-60 | job preferences render as "Not provided" iff the field is falsy or none of its three lists is an array |
| ChatService.BuildMessages | backend/src/services/chat.service.ts:87-91 | the model gets history length + 2 turns: the system prompt, the history unchanged, then the new message |
| ChatService.ContextUnused | backend/src/services/chat.service.ts:73-91 | the turns sent to the model do not depend on the retrieved context |
| ChatService.PromptRepeatsNewMessage | backend/src/services/chat.service.ts:24-33 | because the user turn is stored before the history is read, the prompt ends with the new message twice |
| ChatService.WorkflowOrder | backend/src/services/chat.service.ts:141-145 | following the edges from START visits getHistory, retrieveContext, callModel, saveResponse, then END |
| ChatService.ApplyLastWins | backend/src/services/chat.service.ts:125-134 | merging partial updates: each channel ends with its last written value; the inputs are never changed |
| ChatService.ApplyNoUpdate | backend/src/services/chat.service.ts:121 | the empty update (saveResponse's `{}`) leaves the state unchanged |
| ChatService.RunGraph | backend/src/services/chat.service.ts:115-122 | the graph appends at most one message, exactly when it succeeds, and that message is the non-empty AI reply |
| ChatService.SaveResponseNode | backend/src/services/chat.service.ts:115-122 | an absent or empty reply fails with "AI response is missing, cannot save." and stores nothing; otherwise exactly one "ai" message is stored |
| ChatService.RunChatCases | backend/src/services/chat.service.ts:152-171 | the composed run equals the flat reference outcome of the turn |
| ChatService.ChatPersistence | backend/src/services/chat.service.ts:157-169 | the user message is stored first and stays stored; a second (AI) message is stored iff the turn succeeds, and the reply is non-empty |
| ChatService.OutcomePersistence | backend/src/services/chat.service.ts:152-171 | the flat outcome of a turn stores the user message first; the AI message is stored iff the turn succeeds, and the reply is non-empty |
| ChatService.OutcomeCallOrder | backend/src/services/chat.service.ts:141-166 | the flat outcome's calls are a prefix of length 3, 5 or 6 of the full call sequence, and it is 3 iff retrieval fails |
| ChatService.RunChatSplit | backend/src/services/chat.service.ts:157-166 | a turn is the user-message store followed by the graph run on the history that already holds it |
| ChatService.TurnComposes | backend/src/services/chat.service.ts:157-166 | storing the user turn then applying the graph's append gives the run's result and calls, with one or two messages stored |
| ChatService.ChatCallOrder | backend/src/services/chat.service.ts:141-166 | the calls are a prefix of: store the user turn, read messages, query knowledge, read profile, call the model, store the AI turn; it stops after the query iff retrieval fails |
| ChatService.TurnStored | backend/src/data-access/chat.repository.ts:13-32 | after a turn, the session holds its old messages plus the new ones with their ids; other sessions are unchanged |
| ChatService.InvokeGraph | backend/src/services/chat.service.ts:166 | running the graph method gives the reference graph result and trace, and stores the AI message iff the graph appends one |
| ChatService.HandleChatMessage | backend/src/services/chat.service.ts:152-171 | the result and trace are the reference run, and the store is the old one with exactly the appended messages |
| KnowledgeService.ExtractText | backend/src/services/knowledge.service.ts:10-18 | a PDF goes to the PDF extractor and plain text to UTF-8 decoding; any other MIME type fails with "Unsupported file type: " + the type |
| KnowledgeService.SplitParagraphsSound | backend/src/services/knowledge.service.ts:29 | the split pieces, stitched back with the separators, give the text; every separator matches `\n\s*\n`; no piece contains a blank line |
| KnowledgeService.NoBlankLineOnePiece | backend/src/services/knowledge.service.ts:29 | a text without a blank line is one piece |
| KnowledgeService.KeepLongMembers | backend/src/services/knowledge.service.ts:29 | the filter keeps exactly the chunks whose trimmed length is greater than 20 |
| KnowledgeService.KeepLongAppend | backend/src/services/knowledge.service.ts:29 | the filter keeps order |
| KnowledgeService.ChunksAreParagraphs | backend/src/services/knowledge.service.ts:29 | the chunks are exactly the long paragraphs, and none contains a blank line |
| KnowledgeService.Documents | backend/src/services/knowledge.service.ts:37-44 | one document per chunk, in order, with the chunk as text and the file name as source |
| KnowledgeService.AddDocumentToKnowledgeBase | backend/src/services/knowledge.service.ts:23-50 | fails iff extraction fails, with extraction's error |
| KnowledgeService.UpsertedDocuments | backend/src/services/knowledge.service.ts:31-48 | nothing is upserted iff no chunk survives; otherwise the upserted texts are the chunks and every source is the file name |
| KnowledgeService.DocumentsAreChunks | backend/src/services/knowledge.service.ts:29-44 | every upserted text is longer than 20 when trimmed and contains no blank line |
| VerifyAuth.Decide | backend/src/api/middlewares/verifyAuth.middleware.ts:4-17 | a rejection carries one of the two 401 messages |
| VerifyAuth.Verify | backend/src/api/middlewares/verifyAuth.middleware.ts:4-17 | a rejection sends 401 with its message, leaves req.user and does not call next; acceptance sets req.user to the decoded token and calls next exactly once |
| VerifyAuth.BearerRequired | backend/src/api/middlewares/verifyAuth.middleware.ts:5-8 | "Missing or invalid Authorization header" iff the header is missing or does not start with "Bearer " |
| VerifyAuth.SchemeIsCaseSensitive | backend/src/api/middlewares/verifyAuth.middleware.ts:6 | "bearer " in lower case is rejected |
| VerifyAuth.Token | backend/src/api/middlewares/verifyAuth.middleware.ts:9 | the token (`split(" ")[1]`) holds no space |
| VerifyAuth.TokenAfterScheme | backend/src/api/middlewares/verifyAuth.middleware.ts:9 | the token is the text after "Bearer " up to the next space |
| VerifyAuth.TokenOf | backend/src/api/middlewares/verifyAuth.middleware.ts:9 | any header of the form "Bearer " + t, optionally followed by a space and more, yields t |
| VerifyAuth.TokenChecked | backend/src/api/middlewares/verifyAuth.middleware.ts:10-16 | a verified token is accepted with its decoded value; a failed verification is "Invalid or expired token" |
| RoadmapsPage.RoundedPercent | frontend/src/pages/Roadmaps.tsx:129 | the rounded percentage is at most 100 |
| RoadmapsPage.RoundedPercentNearest | frontend/src/pages/Roadmaps.tsx:129 | the percentage is the nearest integer to 100·completed/total, halves rounded up, as `Math.round` does |
| RoadmapsPage.ProgressPercentage | frontend/src/pages/Roadmaps.tsx:127-130 | progress lies in 0..100 for a non-empty task list |
| RoadmapsPage.ProgressEnds | frontend/src/pages/Roadmaps.tsx:127-130 | 0 when no task is done, 100 when all are |
| RoadmapsPage.RoundedPercentEnds | frontend/src/pages/Roadmaps.tsx:129 | the rounding gives 0 for no completed task and 100 for all |
| RoadmapsPage.ProgressMonotone | frontend/src/pages/Roadmaps.tsx:127-130 | progress does not decrease as the completed count grows |
| RoadmapsPage.CompletedCount | frontend/src/pages/Roadmaps.tsx:128 | the completed count is at most the number of tasks |
| RoadmapsPage.PhaseTasks | frontend/src/pages/Roadmaps.tsx:132-134 | exactly the tasks with the phase |
| RoadmapsPage.PhaseTasksAppend | frontend/src/pages/Roadmaps.tsx:132-134 | the filter keeps the original order |
| RoadmapsPage.UniquePhasesFirstOccurrences | frontend/src/pages/Roadmaps.tsx:136-138 | `Array.from(new Set(...))` lists the phases in first-occurrence order, each once; it covers every task's phase and holds only task phases |
| RoadmapsPage.PhasesPartitionTasks | frontend/src/pages/Roadmaps.tsx:132-138 | the group sizes over the unique phases sum to the number of tasks |
| RoadmapsPage.ToggleRequest | frontend/src/pages/Roadmaps.tsx:117-119 | the request is `{task: title, isCompleted: !current}` |
| RoadmapsPage.ToggleRequestAccepted | frontend/src/pages/Roadmaps.tsx:307 | a click's request passes the backend's RoadmapUpdateSchema and flips the flag |
| JobSearchPage.SavedJobs.ToggleSavedJob | frontend/src/pages/JobSearch.tsx:48-56 | the saved set becomes the toggle of the url |
| JobSearchPage.Toggled | frontend/src/pages/JobSearch.tsx:48-56 | the url is saved afterwards iff it was not before; every other url keeps its state |
| JobSearchPage.ToggleTwice | frontend/src/pages/JobSearch.tsx:48-56 | toggling the same url twice restores the saved set |
| JobSearchPage.TogglesCommute | frontend/src/pages/JobSearch.tsx:48-56 | toggles of two urls commute |
| JobSearchPage.PlaceholderJobsShareSavedState | frontend/src/pages/JobSearch.tsx:59 | two jobs repaired to the placeholder url share saved state: saving one saves the other |
| JobSearchPage.SectionsAreBuckets | frontend/src/pages/JobSearch.tsx:209-245 | every rendered section is a listed bucket, shows exactly that bucket's jobs, and is non-empty |
| JobSearchPage.BucketsHaveSections | frontend/src/pages/JobSearch.tsx:209-245 | every listed non-empty bucket has its section |
| JobSearchPage.SectionsDistinct | frontend/src/pages/JobSearch.tsx:209-245 | distinct bucket keys give sections with distinct categories |
| JobSearchPage.CountMatchesCards | frontend/src/pages/JobSearch.tsx:204-265 | the count shown is the number of cards rendered; "No jobs found" shows iff no section shows iff the count is 0 |
| JobSearchPage.SectionPerBucket | frontend/src/pages/JobSearch.tsx:209-245 | a bucket's section shows iff the bucket is non-empty, with that bucket's jobs, and at most once |
| JobSearchPage.LabelsDistinct | frontend/src/pages/JobSearch.tsx:123-124 | the three buckets get three different labels, and any key other than passion or strength is "Growth Opportunity" |
| ProfilePage.AddWorkExperience | frontend/src/pages/Profile.tsx:90-105 | the list is the old one (empty when missing) plus one new entry; every other profile field is unchanged |
| ProfilePage.AddedExperienceIsBlank | frontend/src/pages/Profile.tsx:91-98 | the appended entry has empty role, company, start date, end date and description, and the old entries come first |
| ProfilePage.RemoveWorkExperience | frontend/src/pages/Profile.tsx:107-113 | keeps exactly the entries without that id (a missing list becomes []); other fields are unchanged |
| ProfilePage.RemoveKeepsOrder | frontend/src/pages/Profile.tsx:110 | the remaining entries keep their order |
| ProfilePage.AddThenRemoveWork | frontend/src/pages/Profile.tsx:90-113 | adding with a fresh id and then removing that id restores the list |
| ProfilePage.AddEducation | frontend/src/pages/Profile.tsx:115-129 | the education list gains one new entry at the end; other fields are unchanged |
| ProfilePage.AddedEducationIsBlank | frontend/src/pages/Profile.tsx:116-122 | the new entry has empty institution, degree, field of study and graduation date |
| ProfilePage.RemoveEducation | frontend/src/pages/Profile.tsx:131-137 | keeps exactly the entries without that id; other fields are unchanged |
| ProfilePage.AddThenRemoveEducation | frontend/src/pages/Profile.tsx:115-137 | adding with a fresh id and then removing that id restores the list |
| ProfilePage.RecordUpload | frontend/src/pages/Profile.tsx:74-81 | a picture upload changes only profilePictureUrl, and a resume upload only resumePath |
| ProfilePage.HandleFileUpload | frontend/src/pages/Profile.tsx:67-88 | a failed upload leaves the profile as it was; a successful one sets the one field and keeps the others |
| ChatPage.Chat.SendMessage | frontend/src/pages/Chat.tsx:94-116 | a no-op for a blank input or no session; otherwise the input is cleared, and the list gains the trimmed user message and the reply, or is back where it was on failure |
| ChatPage.Chat.BeginSend | frontend/src/pages/Chat.tsx:95-105 | with a non-blank input and a session: appends one user message with the trimmed text, clears the input and marks sending |
| ChatPage.Chat.FinishSend | frontend/src/pages/Chat.tsx:107-115 | appends the reply, or drops the last message on failure; sending ends either way |
| ChatPage.DropLastUndoesAppend | frontend/src/pages/Chat.tsx:103-112 | `slice(0, -1)` undoes the optimistic append |
| ChatPage.BlankInput | frontend/src/pages/Chat.tsx:95 | the trimmed input is empty iff every character is whitespace |
| ChatPage.Chat.CreateNewSession | frontend/src/pages/Chat.tsx:75-92 | the new session goes first and is selected, and the messages are emptied; a failed request changes nothing |
| ChatPage.Chat.LoadSessions | frontend/src/pages/Chat.tsx:51-64 | installs the list, and selects its first session only when the list is non-empty and none is selected |
| HealthPage.UptimeDecomposition | frontend/src/pages/Health.tsx:73-76 | seconds = days·86400 + hours·3600 + minutes·60 + r, with r < 60, hours < 24 and minutes < 60 |
| HealthPage.LayoutIsJoin | frontend/src/pages/Health.tsx:78-84 | the text is "Dd Hh Mm" with days, "Hh Mm" with hours, "Mm" otherwise, as space-separated fields |
| HealthPage.ReadFormattedUptime | frontend/src/pages/Health.tsx:73-85 | reading the formatted text back gives the whole minutes of the uptime |
| HealthPage.SameTextSameMinute | frontend/src/pages/Health.tsx:73-85 | two uptimes format alike iff they fall in the same minute |
| HealthPage.StatusClassesAgree | frontend/src/pages/Health.tsx:43-71 | icon and colour put every status in the same class: green iff healthy/connected/available, red iff unhealthy/disconnected/unavailable, yellow otherwise |

## Left out

- RoadmapsPage.RoundedPercent: models `Math.round((c / n) * 100)` as exact integer rounding, halves up. Floating-point error in the division is not modelled. An empty task list, where the code gives NaN, is excluded by a precondition.
- HealthPage.FormatUptime: takes a whole number of seconds. Fractional or negative uptimes are not modelled.
- UserRepository.Merge: models Firestore's `set(..., {merge: true})` as a top-level override. Nested maps are replaced, not deep-merged.
- RoadmapService.CreateRoadmapForJob: a reply without `roadmap90Days` gives a record without the `roadmap` key, following the JavaScript data flow. Firestore itself would reject an undefined field.
- The language model, `JSON.parse`, the URL parser (the WHATWG URL Standard parser behind `new URL` and `z.string().url()`), UUID validation, PDF text extraction, UTF-8 decoding, the vector store query, the embeddings and the job-search API are oracles. They are function values in an environment record. Nothing is assumed about their results beyond what the JSON value type can express (see the next line).
- JSON numbers are modelled as integers (`Js.JNum` holds an `int`). Fractional values, `-0` and overflowing literals such as `1e400` cannot come from the `JSON.parse` oracle. The same goes for the number-to-string step that renders a numeric field such as `careerGoals` in the chat profile block. No schema here uses `z.number`, so no stated property depends on numbers.
- Firestore reads and writes are modelled as never failing, except for the two failures the code handles: `updateTaskStatus` on a missing roadmap (NotFound) and the chat profile fetch caught in `callModel`. A rejected `await` ends the request in the code and cannot be shown by the model. This covers `getUserProfile` and `getPrimaryRoadmap` in `findPersonalizedJobs` and `createRoadmapForJob`, `saveRoadmap`, and `addMessageToSession` and `getSessionMessages` in the chat pipeline.
- Prompt wording is abstracted. A prompt is the tuple of values the code interpolates into it.
- Generated ids (Firestore `add`/`doc()`, `uuid`) and clocks (`serverTimestamp`, `Date.now`, `new Date()`) are parameters. Each clock reading is its own parameter: the chat page's `createNewSession` gets separate `createdAt` and `updatedAt` instants. Fresh ids come with a freshness precondition, and the server timestamp is a strictly increasing counter.
- `upsertDocuments` is not modelled beyond the list of documents handed to it. Its own failures and the embedding step are left out.
- JavaScript object spread of a string or an array (`{...job}` for a non-object job) is modelled as the empty object.
- HTTP plumbing is left out: controllers, routes, the frontend API client, toasts, loading spinners beyond the modelled flags, and shape differences between backend replies and frontend types.
- React is left out: scheduling, effects (`loadSessionMessages`, reloads after a toggle), stale closures over `currentSession`, and functional `prev =>` updates. The updates are applied in sequence.
- Concurrency is left out: concurrent requests and store-level atomicity.
- JSX rendering is left out beyond the counts, section visibility, labels and status classes.
- The mock roadmap fixture in Roadmaps.tsx and Chat.tsx's `formatDate` (wall clock and locale) are not part of this model.
- The `completedTasks ⊆ task names` invariant is not claimed, because the code does not enforce it.
