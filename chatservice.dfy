/**
 * The chat pipeline: a four-node LangGraph workflow (getHistory,
 * retrieveContext, callModel, saveResponse) over a state record, run by
 * `handleChatMessage` after it has stored the user's message.
 */
module ChatService {
  import opened Wrappers
  import opened Js
  import opened ChatRepository
  import opened UserRepository
  import opened Collaborators

  // ---------------------------------------------------------------------
  // getHistory

  /** A stored message as a chat turn: role "user" is a human turn, every other role an AI turn. */
  function TurnOf(m: MessageData): Turn {
    if m.role == "user" then Human(m.content) else Ai(m.content)
  }

  /** `messages.map(...)` in `getHistory`. */
  function HistoryOf(ms: seq<MessageData>): (h: seq<Turn>)
    ensures |h| == |ms|
    ensures forall i :: 0 <= i < |ms| ==> h[i] == TurnOf(ms[i])
  {
    if ms == [] then [] else [TurnOf(ms[0])] + HistoryOf(ms[1..])
  }

  /** The history of a longer conversation extends the history of its prefix. */
  lemma HistoryAppend(a: seq<MessageData>, b: seq<MessageData>)
    ensures HistoryOf(a + b) == HistoryOf(a) + HistoryOf(b)
  {
    var l := HistoryOf(a + b);
    var r := HistoryOf(a) + HistoryOf(b);
    assert |l| == |r|;
    forall i | 0 <= i < |l| ensures l[i] == r[i] {
      if i < |a| { assert (a + b)[i] == a[i]; } else { assert (a + b)[i] == b[i - |a|]; }
    }
  }

  /** A human turn comes exactly from a message with role "user". */
  lemma HumanIffUser(ms: seq<MessageData>, i: nat)
    requires i < |ms|
    ensures HistoryOf(ms)[i].Human? <==> ms[i].role == "user"
    ensures HistoryOf(ms)[i].text == ms[i].content
  {
  }

  // ---------------------------------------------------------------------
  // retrieveContext

  const NoContext: string := "\U{26A0}\U{FE0F} No relevant context found in the knowledge base."
  const ContextSeparator: string := "\n\n---\n\n"

  /** The context string `retrieveContext` builds from the texts of the relevant documents. */
  function ContextOf(texts: seq<string>): (r: string)
    ensures texts == [] ==> r == NoContext
    ensures |texts| == 1 ==> r == texts[0]
    ensures |texts| >= 2 ==> r == texts[0] + ContextSeparator + ContextOf(texts[1..])
  {
    if texts == [] then NoContext else Join(texts, ContextSeparator)
  }

  // ---------------------------------------------------------------------
  // callModel: the profile block

  const NoProfile: string := "\U{26A0}\U{FE0F} No user profile found in Firestore."
  const NotProvided: string := "Not provided"

  /** `Array.isArray(v) ? v.join(", ") : "Not provided"` for a key that may be absent. */
  function ListOrNotProvided(m: map<string, Json>, key: string): string {
    if key in m && m[key].JArr? then JoinValues(m[key].items, ", ") else NotProvided
  }

  /** One of the job-preference parts: the label and the joined list, or "" when the key is not an array. */
  function PreferencePart(jp: Json, key: string, title: string): (r: string)
    requires title != ""
    ensures r == "" <==> !(jp.JObj? && key in jp.fields && jp.fields[key].JArr?)
    ensures r != "" ==> |title| <= |r| && r[..|title|] == title
  {
    if jp.JObj? && key in jp.fields && jp.fields[key].JArr? then title + JoinValues(jp.fields[key].items, ", ") else ""
  }

  /** The three parts, with `filter(Boolean)` applied. */
  function NonEmpty(parts: seq<string>): (r: seq<string>)
    ensures forall i :: 0 <= i < |r| ==> r[i] != "" && r[i] in parts
    ensures forall x :: x in parts && x != "" ==> x in r
  {
    if parts == [] then [] else (if parts[0] == "" then [] else [parts[0]]) + NonEmpty(parts[1..])
  }

  /** `filter(Boolean)` keeps order and multiplicity: it works on each part of a concatenation separately. */
  lemma {:induction false} NonEmptyAppend(a: seq<string>, b: seq<string>)
    ensures NonEmpty(a + b) == NonEmpty(a) + NonEmpty(b)
    decreases |a|
  {
    if a == [] {
      assert a + b == b;
    } else {
      assert (a + b)[0] == a[0] && (a + b)[1..] == a[1..] + b;
      NonEmptyAppend(a[1..], b);
    }
  }

  /** With three parts, the kept parts come in the order given: titles, then work models, then industries. */
  lemma NonEmptyThree(x: string, y: string, z: string)
    ensures NonEmpty([x, y, z]) == (if x == "" then [] else [x]) + (if y == "" then [] else [y])
                                   + (if z == "" then [] else [z])
  {
    assert [x, y, z] == [x] + ([y] + [z]);
    NonEmptyAppend([x], [y] + [z]);
    NonEmptyAppend([y], [z]);
    assert [x][1..] == [] && [y][1..] == [] && [z][1..] == [];
  }

  /** The job-preferences line: the non-empty parts joined by "; ", or "Not provided". */
  function JobPreferences(m: map<string, Json>): string {
    if "jobPreferences" in m && Truthy(m["jobPreferences"]) then
      var jp := m["jobPreferences"];
      var joined := Join(NonEmpty([PreferencePart(jp, "jobTitles", "Job Titles: "),
                                   PreferencePart(jp, "workModels", "Work Models: "),
                                   PreferencePart(jp, "targetIndustries", "Industries: ")]), "; ");
      if joined == "" then NotProvided else joined
    else NotProvided
  }

  /** `careerGoals ?? "Not provided"`, rendered by the template literal. */
  function CareerGoals(m: map<string, Json>): string {
    if "careerGoals" in m && !m["careerGoals"].JNull? then ToJsString(m["careerGoals"]) else NotProvided
  }

  /**
   * The profile block of the system prompt. `fetch` is the outcome of
   * `getUserProfile`: an error where the read throws, None for a missing document.
   */
  function RenderProfile(fetch: Result<Option<map<string, Json>>>): string {
    if fetch.Err? || fetch.value.None? then NoProfile
    else
      var m := fetch.value.value;
      "- Skills: " + ListOrNotProvided(m, "skills")
      + "\n- Interests: " + ListOrNotProvided(m, "interests")
      + "\n- Values: " + ListOrNotProvided(m, "values")
      + "\n- Career Goals: " + CareerGoals(m)
      + "\n- Job Preferences: " + JobPreferences(m)
  }

  /** The sentinel is rendered exactly when no profile could be read. */
  lemma ProfileSentinel(fetch: Result<Option<map<string, Json>>>)
    ensures RenderProfile(fetch) == NoProfile <==> fetch.Err? || fetch.value.None?
  {
    if fetch.Ok? && fetch.value.Some? {
      var r := RenderProfile(fetch);
      assert r[0] == '-';
      assert NoProfile[0] != '-';
    }
  }

  /** A list-valued field that is absent or not an array renders as "Not provided". */
  lemma NonArrayNotProvided(m: map<string, Json>, key: string)
    requires key !in m || !m[key].JArr?
    ensures ListOrNotProvided(m, key) == NotProvided
  {
  }

  lemma {:induction false} JoinNonEmptyEmpty(parts: seq<string>, sep: string)
    requires forall i :: 0 <= i < |parts| ==> parts[i] != ""
    ensures Join(parts, sep) == "" <==> parts == []
  {
    if |parts| >= 2 {
      assert Join(parts, sep) == parts[0] + sep + Join(parts[1..], sep);
    }
  }

  /**
   * The job-preferences line is "Not provided" exactly when `jobPreferences`
   * is falsy or none of its three lists is an array.
   */
  lemma JobPreferencesNotProvided(m: map<string, Json>)
    ensures JobPreferences(m) == NotProvided <==>
              !("jobPreferences" in m && Truthy(m["jobPreferences"]))
              || (forall key :: key in ["jobTitles", "workModels", "targetIndustries"] ==>
                    !(m["jobPreferences"].JObj? && key in m["jobPreferences"].fields
                      && m["jobPreferences"].fields[key].JArr?))
  {
    if "jobPreferences" in m && Truthy(m["jobPreferences"]) {
      var jp := m["jobPreferences"];
      var parts := [PreferencePart(jp, "jobTitles", "Job Titles: "),
                    PreferencePart(jp, "workModels", "Work Models: "),
                    PreferencePart(jp, "targetIndustries", "Industries: ")];
      var kept := NonEmpty(parts);
      JoinNonEmptyEmpty(kept, "; ");
      var joined := Join(kept, "; ");
      if kept != [] {
        assert kept[0] in parts;
        assert kept[0][0] in "JWI";
        assert joined == kept[0] || joined == kept[0] + "; " + Join(kept[1..], "; ");
        assert joined[0] == kept[0][0];
        assert joined[0] != NotProvided[0];
      } else {
        assert parts[0] in parts && parts[1] in parts && parts[2] in parts;
      }
    }
  }

  // ---------------------------------------------------------------------
  // callModel: the message list

  /** `[systemPrompt, ...history, new HumanMessage(content)]`. */
  function BuildMessages(profileContext: string, history: seq<Turn>, content: string): (r: seq<Turn>)
    ensures |r| == |history| + 2
    ensures r[0] == System(profileContext) && r[|r| - 1] == Human(content)
    ensures r[1..|r| - 1] == history
  {
    [System(profileContext)] + history + [Human(content)]
  }

  /**
   * The user's message is stored before `getHistory` reads the session,
   * so the history already ends with it and the model sees it twice.
   */
  lemma PromptRepeatsNewMessage(stored: seq<MessageData>, content: string, stamp: nat, profileContext: string)
    ensures var turns := BuildMessages(profileContext, HistoryOf(stored + [MessageData("user", content, stamp)]), content);
            |turns| == |stored| + 3 && turns[|turns| - 2] == Human(content) && turns[|turns| - 1] == Human(content)
  {
    HistoryAppend(stored, [MessageData("user", content, stamp)]);
  }

  // ---------------------------------------------------------------------
  // The graph

  datatype Node = Start | GetHistory | RetrieveContext | CallModel | SaveResponse | End

  /** The `addEdge` calls of the workflow: each node's single successor. */
  const Edges: map<Node, Node> := map[
    Start := GetHistory, GetHistory := RetrieveContext, RetrieveContext := CallModel,
    CallModel := SaveResponse, SaveResponse := End]

  /** The nodes a run visits after `n`, up to `End`, following at most `fuel` edges. */
  function Path(edges: map<Node, Node>, n: Node, fuel: nat): seq<Node>
    decreases fuel
  {
    if fuel == 0 || n !in edges || edges[n] == End then []
    else [edges[n]] + Path(edges, edges[n], fuel - 1)
  }

  /** A run starts at getHistory and visits the four nodes once each, in this order, then ends. */
  lemma WorkflowOrder()
    ensures Path(Edges, Start, |Edges|) == [GetHistory, RetrieveContext, CallModel, SaveResponse]
  {
    assert Edges.Keys == {Start, GetHistory, RetrieveContext, CallModel, SaveResponse};
    assert |Edges.Keys| == 5;
    assert Path(Edges, SaveResponse, 1) == [];
    assert Path(Edges, CallModel, 2) == [SaveResponse];
    assert Path(Edges, RetrieveContext, 3) == [CallModel, SaveResponse];
    assert Path(Edges, GetHistory, 4) == [RetrieveContext, CallModel, SaveResponse];
  }

  /** The graph state; `context` and `aiResponse` start out absent. */
  datatype GraphState = GraphState(
    userId: string, sessionId: string, newMessage: string,
    history: seq<Turn>, context: Option<string>, aiResponse: Option<string>)

  /** The partial state a node returns. */
  datatype Update = Update(history: Option<seq<Turn>>, context: Option<string>, aiResponse: Option<string>)

  const NoUpdate: Update := Update(None, None, None)

  /** Each channel keeps the last value written to it. */
  function Apply(s: GraphState, u: Update): GraphState {
    s.(history := if u.history.Some? then u.history.value else s.history,
       context := if u.context.Some? then u.context else s.context,
       aiResponse := if u.aiResponse.Some? then u.aiResponse else s.aiResponse)
  }

  /** Two updates in a row: a channel the second writes takes its value, the rest keep the first's. */
  lemma ApplyLastWins(s: GraphState, u1: Update, u2: Update)
    ensures var t := Apply(Apply(s, u1), u2);
            t.userId == s.userId && t.sessionId == s.sessionId && t.newMessage == s.newMessage
            && t.history == (if u2.history.Some? then u2.history.value else if u1.history.Some? then u1.history.value else s.history)
            && t.context == (if u2.context.Some? then u2.context else if u1.context.Some? then u1.context else s.context)
            && t.aiResponse == (if u2.aiResponse.Some? then u2.aiResponse else if u1.aiResponse.Some? then u1.aiResponse else s.aiResponse)
  {
  }

  lemma ApplyNoUpdate(s: GraphState)
    ensures Apply(s, NoUpdate) == s
  {
  }

  // ---------------------------------------------------------------------
  // The nodes and the entry point

  /** `retrieveContext`: the update it returns, or the error `queryRelevant` throws. */
  function RetrieveContextNode(env: Env, s: GraphState): Result<Update> {
    match env.retrieve(s.newMessage)
    case Err(e) => Err(e)
    case Ok(texts) => Ok(Update(None, Some(ContextOf(texts)), None))
  }

  /** The prompt `callModel` sends; the retrieved context is not part of it. */
  function ChatTurns(profile: string, s: GraphState): seq<Turn> {
    BuildMessages(profile, s.history, s.newMessage)
  }

  /** The context a state carries has no influence on the prompt. */
  lemma ContextUnused(profile: string, s: GraphState, c: Option<string>)
    ensures ChatTurns(profile, s.(context := c)) == ChatTurns(profile, s)
  {
  }

  /** `callModel`: the reply as an update, or the error the model call throws. */
  function CallModelNode(env: Env, profile: string, s: GraphState): Result<Update> {
    match env.llm(ChatPrompt(ChatTurns(profile, s)))
    case Err(e) => Err(e)
    case Ok(text) => Ok(Update(None, None, Some(text)))
  }

  /** The state after a stretch of the graph, or the error that ended it, and the calls made. */
  datatype GraphRun = GraphRun(state: Result<GraphState>, calls: seq<Call>)

  /** retrieveContext then callModel, each update merged into the state. */
  function ModelNodes(env: Env, profile: string, s: GraphState): GraphRun {
    match RetrieveContextNode(env, s)
    case Err(e) => GraphRun(Err(e), [QueryKnowledge(s.newMessage)])
    case Ok(u) =>
      var s1 := Apply(s, u);
      var calls := [QueryKnowledge(s.newMessage), ReadProfile, InvokeModel(ChatPrompt(ChatTurns(profile, s1)))];
      match CallModelNode(env, profile, s1)
      case Err(e) => GraphRun(Err(e), calls)
      case Ok(u2) => GraphRun(Ok(Apply(s1, u2)), calls)
  }

  const MissingResponse: string := "AI response is missing, cannot save."
  const NoGraphResponse: string := "Graph execution failed to produce an AI response."

  /** What (part of) a chat turn does: its result, its external calls, and the messages it appends. */
  datatype ChatRun = ChatRun(result: Result<string>, calls: seq<Call>, appended: seq<MessageData>)

  /**
   * The graph run over a session that holds `ms` (the user's message
   * included), with `stamp` the server time when saveResponse writes.
   */
  function RunGraph(env: Env, profile: string, ms: seq<MessageData>,
                    userId: string, sessionId: string, content: string, stamp: nat): (r: ChatRun)
    ensures |r.appended| <= 1 && (r.appended != [] <==> r.result.Ok?)
    ensures r.result.Ok? ==> r.result.value != "" && r.appended == [MessageData("ai", r.result.value, stamp)]
  {
    var start := Apply(GraphState(userId, sessionId, content, [], None, None), Update(Some(HistoryOf(ms)), None, None));
    var g := ModelNodes(env, profile, start);
    var calls := [ReadMessages] + g.calls;
    if g.state.Err? then ChatRun(Err(g.state.error), calls, [])
    else
      var reply := g.state.value.aiResponse;
      if reply.None? || reply.value == "" then ChatRun(Err(AppError(MissingResponse)), calls, [])
      else ChatRun(Ok(reply.value), calls + [AppendMessage("ai")], [MessageData("ai", reply.value, stamp)])
  }

  /**
   * `handleChatMessage` on a session that held `stored`, with `stamp` the
   * server time at its first write: the user's message, then the graph.
   */
  function RunChat(env: Env, profile: string, stored: seq<MessageData>,
                   userId: string, sessionId: string, content: string, stamp: nat): ChatRun
  {
    var userMessage := MessageData("user", content, stamp);
    var g := RunGraph(env, profile, stored + [userMessage], userId, sessionId, content, stamp + 2);
    ChatRun(g.result, [AppendMessage("user")] + g.calls, [userMessage] + g.appended)
  }

  /** A chat turn is the user's message followed by the graph run on the session that includes it. */
  lemma RunChatSplit(env: Env, profile: string, stored: seq<MessageData>,
                     userId: string, sessionId: string, content: string, stamp: nat)
    ensures var userMessage := MessageData("user", content, stamp);
            var g := RunGraph(env, profile, stored + [userMessage], userId, sessionId, content, stamp + 2);
            var run := RunChat(env, profile, stored, userId, sessionId, content, stamp);
            run.result == g.result && run.calls == [AppendMessage("user")] + g.calls
            && run.appended == [userMessage] + g.appended
  {
  }

  /** The four ways a chat turn can end, read off the workflow directly: a reference for `RunChat`. */
  function TurnOutcome(env: Env, profile: string, stored: seq<MessageData>,
                       content: string, stamp: nat): ChatRun
  {
    var userMessage := MessageData("user", content, stamp);
    var turns := BuildMessages(profile, HistoryOf(stored + [userMessage]), content);
    var before := [AppendMessage("user"), ReadMessages, QueryKnowledge(content)];
    var asked := before + [ReadProfile, InvokeModel(ChatPrompt(turns))];
    if env.retrieve(content).Err? then ChatRun(Err(env.retrieve(content).error), before, [userMessage])
    else match env.llm(ChatPrompt(turns))
      case Err(e) => ChatRun(Err(e), asked, [userMessage])
      case Ok(text) =>
        if text == "" then ChatRun(Err(AppError(MissingResponse)), asked, [userMessage])
        else ChatRun(Ok(text), asked + [AppendMessage("ai")], [userMessage, MessageData("ai", text, stamp + 2)])
  }

  /** The graph run agrees with the reference in every case. */
  lemma RunChatCases(env: Env, profile: string, stored: seq<MessageData>,
                     userId: string, sessionId: string, content: string, stamp: nat)
    ensures RunChat(env, profile, stored, userId, sessionId, content, stamp) == TurnOutcome(env, profile, stored, content, stamp)
  {
    var userMessage := MessageData("user", content, stamp);
    var start := GraphState(userId, sessionId, content, HistoryOf(stored + [userMessage]), None, None);
    assert Apply(GraphState(userId, sessionId, content, [], None, None), Update(Some(HistoryOf(stored + [userMessage])), None, None)) == start;
    match RetrieveContextNode(env, start)
    case Err(e) =>
    case Ok(u) =>
      ContextUnused(profile, start, Apply(start, u).context);
      assert Apply(start, u) == start.(context := Apply(start, u).context);
  }

  lemma OutcomePersistence(env: Env, profile: string, stored: seq<MessageData>,
                           content: string, stamp: nat)
    ensures var run := TurnOutcome(env, profile, stored, content, stamp);
            run.calls[0] == AppendMessage("user")
            && run.appended[0] == MessageData("user", content, stamp)
            && (|run.appended| == 2 <==> run.result.Ok?)
            && (run.result.Ok? ==>
                  run.result.value != "" && run.appended[1] == MessageData("ai", run.result.value, stamp + 2))
            && 1 <= |run.appended| <= 2
  {
  }

  /**
   * The user's message is always stored first and stays stored; the reply
   * is stored, as one "ai" message, exactly when the call succeeds, and a
   * successful reply is never empty.
   */
  lemma ChatPersistence(env: Env, profile: string, stored: seq<MessageData>,
                        userId: string, sessionId: string, content: string, stamp: nat)
    ensures var run := RunChat(env, profile, stored, userId, sessionId, content, stamp);
            run.calls[0] == AppendMessage("user")
            && run.appended[0] == MessageData("user", content, stamp)
            && (|run.appended| == 2 <==> run.result.Ok?)
            && (run.result.Ok? ==>
                  run.result.value != "" && run.appended[1] == MessageData("ai", run.result.value, stamp + 2))
            && 1 <= |run.appended| <= 2
  {
    RunChatCases(env, profile, stored, userId, sessionId, content, stamp);
    OutcomePersistence(env, profile, stored, content, stamp);
  }

  lemma OutcomeCallOrder(env: Env, profile: string, stored: seq<MessageData>,
                         content: string, stamp: nat)
    ensures var run := TurnOutcome(env, profile, stored, content, stamp);
            var turns := BuildMessages(profile, HistoryOf(stored + [MessageData("user", content, stamp)]), content);
            var full := [AppendMessage("user"), ReadMessages, QueryKnowledge(content), ReadProfile,
                         InvokeModel(ChatPrompt(turns)), AppendMessage("ai")];
            |run.calls| in {3, 5, 6} && run.calls == full[..|run.calls|]
            && (|run.calls| == 3 <==> env.retrieve(content).Err?)
  {
  }

  /** The external calls follow getHistory, retrieveContext, callModel, saveResponse; a failing step ends the run. */
  lemma ChatCallOrder(env: Env, profile: string, stored: seq<MessageData>,
                      userId: string, sessionId: string, content: string, stamp: nat)
    ensures var run := RunChat(env, profile, stored, userId, sessionId, content, stamp);
            var turns := BuildMessages(profile, HistoryOf(stored + [MessageData("user", content, stamp)]), content);
            var full := [AppendMessage("user"), ReadMessages, QueryKnowledge(content), ReadProfile,
                         InvokeModel(ChatPrompt(turns)), AppendMessage("ai")];
            |run.calls| in {3, 5, 6} && run.calls == full[..|run.calls|]
            && (|run.calls| == 3 <==> env.retrieve(content).Err?)
  {
    RunChatCases(env, profile, stored, userId, sessionId, content, stamp);
    OutcomeCallOrder(env, profile, stored, content, stamp);
  }

  /**
   * `saveResponse`: no reply, or an empty one, is an error and stores
   * nothing; otherwise exactly one "ai" message is stored.
   */
  method SaveResponseNode(chats: ChatStore, s: GraphState, aiMessageId: string) returns (o: Outcome)
    requires chats.Valid()
    requires forall i :: 0 <= i < |chats.Messages((s.userId, s.sessionId))| ==>
               chats.Messages((s.userId, s.sessionId))[i].id != aiMessageId
    modifies chats
    ensures chats.Valid()
    ensures s.aiResponse.None? || s.aiResponse.value == "" ==>
              o == Failed(AppError(MissingResponse)) && unchanged(chats)
    ensures s.aiResponse.Some? && s.aiResponse.value != "" ==>
              o == Done && chats.State() == WithMessage(old(chats.State()), (s.userId, s.sessionId), "ai", s.aiResponse.value, aiMessageId)
  {
    if s.aiResponse.None? || s.aiResponse.value == "" {
      return Failed(AppError(MissingResponse));
    }
    var _ := chats.AddMessageToSession(s.userId, s.sessionId, "ai", s.aiResponse.value, aiMessageId);
    o := Done;
  }

  /** The stored messages a turn adds, with their ids. */
  function WithIds(appended: seq<MessageData>, userMessageId: string, aiMessageId: string): (r: seq<StoredMessage>)
    requires 1 <= |appended| <= 2
    ensures |r| == |appended|
    ensures forall i :: 0 <= i < |r| ==> r[i].data == appended[i]
    ensures r[0].id == userMessageId && (|r| == 2 ==> r[1].id == aiMessageId)
  {
    if |appended| == 1 then [StoredMessage(userMessageId, appended[0])]
    else [StoredMessage(userMessageId, appended[0]), StoredMessage(aiMessageId, appended[1])]
  }

  /**
   * The store after a turn that appended `appended`: each message goes
   * through addMessageToSession in order, the user's with `userMessageId`
   * and the reply with `aiMessageId`.
   */
  function AfterTurn(st: Store, k: Key, appended: seq<MessageData>, userMessageId: string, aiMessageId: string): Store
    requires 1 <= |appended| <= 2
  {
    var s1 := WithMessage(st, k, appended[0].role, appended[0].content, userMessageId);
    if |appended| == 1 then s1 else WithMessage(s1, k, appended[1].role, appended[1].content, aiMessageId)
  }

  /** One message stamped with the current clock, stored by addMessageToSession. */
  lemma MessageStored(st: Store, k: Key, m: MessageData, id: string)
    requires StoreValid(st) && m.createdAt == st.clock
    ensures var r := WithMessage(st, k, m.role, m.content, id);
            StoreValid(r)
            && MessagesOf(r, k) == MessagesOf(st, k) + [StoredMessage(id, m)]
            && r.clock == st.clock + 2
            && k in r.sessions && r.sessions[k].lastUpdatedAt == r.clock - 1
            && (k in st.sessions ==> r.sessions[k].createdAt == st.sessions[k].createdAt)
            && (forall k' :: k' != k ==> MessagesOf(r, k') == MessagesOf(st, k'))
            && (forall k' :: k' != k && k' in st.sessions ==> k' in r.sessions && r.sessions[k'] == st.sessions[k'])
  {
    WithMessageValid(st, k, m.role, m.content, id);
    WithMessageEffect(st, k, m.role, m.content, id);
    assert m == MessageData(m.role, m.content, st.clock);
  }

  /**
   * A turn whose messages carry the stamps the clock gives them stores
   * exactly those messages, with their ids, after the session's earlier
   * ones; it advances the clock two ticks per message, leaves the
   * session's `createdAt` alone, makes it the most recently updated
   * session, and touches no other session.
   */
  lemma TurnStored(st: Store, k: Key, appended: seq<MessageData>, userMessageId: string, aiMessageId: string)
    requires StoreValid(st) && 1 <= |appended| <= 2
    requires forall i :: 0 <= i < |appended| ==> appended[i].createdAt == st.clock + 2 * i
    ensures var r := AfterTurn(st, k, appended, userMessageId, aiMessageId);
            StoreValid(r)
            && MessagesOf(r, k) == MessagesOf(st, k) + WithIds(appended, userMessageId, aiMessageId)
            && r.clock == st.clock + 2 * |appended|
            && k in r.sessions && r.sessions[k].lastUpdatedAt == r.clock - 1
            && (k in st.sessions ==> r.sessions[k].createdAt == st.sessions[k].createdAt)
            && (forall k' :: k' != k ==> MessagesOf(r, k') == MessagesOf(st, k'))
            && (forall k' :: k' != k && k' in st.sessions ==> k' in r.sessions && r.sessions[k'] == st.sessions[k'])
  {
    var m0 := appended[0];
    var s1 := WithMessage(st, k, m0.role, m0.content, userMessageId);
    MessageStored(st, k, m0, userMessageId);
    if |appended| == 2 {
      var m1 := appended[1];
      MessageStored(s1, k, m1, aiMessageId);
      var ids := WithIds(appended, userMessageId, aiMessageId);
      assert ids == [StoredMessage(userMessageId, m0), StoredMessage(aiMessageId, m1)];
      assert MessagesOf(st, k) + [StoredMessage(userMessageId, m0)] + [StoredMessage(aiMessageId, m1)]
          == MessagesOf(st, k) + ids;
    }
  }

  /** The graph, run on the store after the user's message has been stored. */
  method InvokeGraph(chats: ChatStore, env: Env, fetch: Result<Option<map<string, Json>>>,
                     userId: string, sessionId: string, content: string, aiMessageId: string,
                     ghost ms: seq<MessageData>, ghost stamp: nat)
    returns (r: Result<string>, calls: seq<Call>)
    requires chats.Valid() && ms == chats.GetSessionMessages(userId, sessionId) && stamp == chats.clock
    requires forall i :: 0 <= i < |chats.Messages((userId, sessionId))| ==> chats.Messages((userId, sessionId))[i].id != aiMessageId
    modifies chats
    ensures chats.Valid()
    ensures var run := RunGraph(env, RenderProfile(fetch), ms, userId, sessionId, content, stamp);
            r == run.result && calls == run.calls
            && (run.appended == [] ==> chats.State() == old(chats.State()))
            && (run.appended != [] ==>
                  chats.State() == WithMessage(old(chats.State()), (userId, sessionId), "ai", run.appended[0].content, aiMessageId))
  {
    // getHistory
    var ms := chats.GetSessionMessages(userId, sessionId);
    var state := Apply(GraphState(userId, sessionId, content, [], None, None), Update(Some(HistoryOf(ms)), None, None));
    calls := [ReadMessages];

    // retrieveContext, callModel (which reads and renders the profile)
    var g := ModelNodes(env, RenderProfile(fetch), state);
    calls := calls + g.calls;
    if g.state.Err? {
      return Err(g.state.error), calls;
    }
    state := g.state.value;

    // saveResponse
    var o := SaveResponseNode(chats, state, aiMessageId);
    if o.Failed? {
      return Err(o.error), calls;
    }
    calls := calls + [AppendMessage("ai")];

    // the guard of handleChatMessage after the run
    if state.aiResponse.None? || state.aiResponse.value == "" {
      assert false;
      return Err(AppError(NoGraphResponse)), calls;
    }
    r := Ok(state.aiResponse.value);
  }

  /**
   * The two writes of a turn, the user's message and then whatever the
   * graph stores, make up `AfterTurn` of the turn's messages.
   */
  lemma TurnComposes(env: Env, profile: string, st0: Store, st2: Store,
                     userId: string, sessionId: string, content: string, userMessageId: string, aiMessageId: string)
    requires var k := (userId, sessionId);
             var g := RunGraph(env, profile, DataOf(MessagesOf(st0, k)) + [MessageData("user", content, st0.clock)],
                               userId, sessionId, content, st0.clock + 2);
             var st1 := WithMessage(st0, k, "user", content, userMessageId);
             (g.appended == [] ==> st2 == st1)
             && (g.appended != [] ==> st2 == WithMessage(st1, k, "ai", g.appended[0].content, aiMessageId))
    ensures var k := (userId, sessionId);
            var g := RunGraph(env, profile, DataOf(MessagesOf(st0, k)) + [MessageData("user", content, st0.clock)],
                              userId, sessionId, content, st0.clock + 2);
            var run := RunChat(env, profile, DataOf(MessagesOf(st0, k)), userId, sessionId, content, st0.clock);
            run.result == g.result && run.calls == [AppendMessage("user")] + g.calls && 1 <= |run.appended| <= 2
            && st2 == AfterTurn(st0, k, run.appended, userMessageId, aiMessageId)
  {
    var k := (userId, sessionId);
    RunChatSplit(env, profile, DataOf(MessagesOf(st0, k)), userId, sessionId, content, st0.clock);
  }

  /**
   * `handleChatMessage`: store the user's message, then run the graph. The
   * user's message stays stored whatever a later step does. `fetch` is
   * the outcome of the `getUserProfile` read inside `callModel`: the
   * stored profile, None, or the error the read throws (caught there).
   */
  method HandleChatMessage(chats: ChatStore, env: Env, fetch: Result<Option<map<string, Json>>>,
                           userId: string, sessionId: string, content: string,
                           userMessageId: string, aiMessageId: string)
    returns (r: Result<string>, calls: seq<Call>)
    requires chats.Valid() && userMessageId != aiMessageId
    requires forall i :: 0 <= i < |chats.Messages((userId, sessionId))| ==>
               chats.Messages((userId, sessionId))[i].id != userMessageId
               && chats.Messages((userId, sessionId))[i].id != aiMessageId
    modifies chats
    ensures chats.Valid()
    ensures var k := (userId, sessionId);
            var run := RunChat(env, RenderProfile(fetch), DataOf(MessagesOf(old(chats.State()), k)), userId, sessionId, content, old(chats.State()).clock);
            r == run.result && calls == run.calls && 1 <= |run.appended| <= 2
            && chats.State() == AfterTurn(old(chats.State()), k, run.appended, userMessageId, aiMessageId)
  {
    ghost var k := (userId, sessionId);
    ghost var st0 := chats.State();
    ghost var userMessage := StoredMessage(userMessageId, MessageData("user", content, st0.clock));
    assert chats.Messages(k) == MessagesOf(st0, k);
    var _ := chats.AddMessageToSession(userId, sessionId, "user", content, userMessageId);
    assert chats.Messages(k) == MessagesOf(st0, k) + [userMessage];
    DataOfAppend(MessagesOf(st0, k), userMessage);
    var tail: seq<Call>;
    r, tail := InvokeGraph(chats, env, fetch, userId, sessionId, content, aiMessageId,
                           DataOf(MessagesOf(st0, k)) + [userMessage.data], st0.clock + 2);
    calls := [AppendMessage("user")] + tail;
    TurnComposes(env, RenderProfile(fetch), st0, chats.State(), userId, sessionId, content, userMessageId, aiMessageId);
  }
}
