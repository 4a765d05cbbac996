/**
 * Chat sessions `users/{userId}/sessions/{sessionId}` and their `messages`
 * sub-collections as an in-memory store. `serverTimestamp()` is an abstract
 * clock; each write takes the current value and advances it, so two writes
 * never share a timestamp. Auto-ids from `add` are supplied by the caller.
 */
module ChatRepository {
  import opened Wrappers

  /** Session key: (userId, sessionId). */
  type Key = (string, string)

  /** The data of a message document. */
  datatype MessageData = MessageData(role: string, content: string, createdAt: nat)

  datatype StoredMessage = StoredMessage(id: string, data: MessageData)

  /**
   * A session document. `createdAt` is present only when `createNewSession`
   * made the document; a session first written by a message has `lastUpdatedAt` only.
   */
  datatype Session = Session(createdAt: Option<nat>, lastUpdatedAt: nat)

  /** One row of `getUserSessions`. */
  datatype SessionSummary = SessionSummary(sessionId: string, lastUpdatedAt: nat)

  /** The rows are in strictly descending `lastUpdatedAt` order. */
  predicate Descending(rows: seq<SessionSummary>) {
    forall i, j :: 0 <= i < j < |rows| ==> rows[i].lastUpdatedAt > rows[j].lastUpdatedAt
  }

  /** The messages are in strictly ascending `createdAt` order. */
  predicate Ascending(ms: seq<MessageData>) {
    forall i, j :: 0 <= i < j < |ms| ==> ms[i].createdAt < ms[j].createdAt
  }

  /** The session ids listed in `rows`. */
  function Ids(rows: seq<SessionSummary>): set<string> {
    set i | 0 <= i < |rows| :: rows[i].sessionId
  }

  /** No session is listed twice. */
  predicate DistinctIds(rows: seq<SessionSummary>) {
    forall i, j :: 0 <= i < j < |rows| ==> rows[i].sessionId != rows[j].sessionId
  }

  /** The number of leading rows updated later than `t`. */
  function InsertPosition(rows: seq<SessionSummary>, t: nat): (p: nat)
    ensures p <= |rows|
    ensures forall i :: 0 <= i < p ==> rows[i].lastUpdatedAt > t
    ensures p < |rows| ==> rows[p].lastUpdatedAt <= t
  {
    if rows == [] || rows[0].lastUpdatedAt <= t then 0 else 1 + InsertPosition(rows[1..], t)
  }

  /** `row` inserted into the rows at the place that keeps them descending. */
  function InsertDescending(rows: seq<SessionSummary>, row: SessionSummary): seq<SessionSummary> {
    var p := InsertPosition(rows, row.lastUpdatedAt);
    rows[..p] + [row] + rows[p..]
  }

  lemma InsertKeepsDescending(rows: seq<SessionSummary>, row: SessionSummary)
    requires Descending(rows)
    requires forall i :: 0 <= i < |rows| ==> rows[i].lastUpdatedAt != row.lastUpdatedAt
    ensures Descending(InsertDescending(rows, row))
  {
    var p := InsertPosition(rows, row.lastUpdatedAt);
    var r := InsertDescending(rows, row);
    assert forall i :: 0 <= i < p ==> r[i] == rows[i];
    assert r[p] == row;
    assert forall i :: p < i < |r| ==> r[i] == rows[i - 1];
    assert forall i :: p <= i < |rows| ==> rows[i].lastUpdatedAt < row.lastUpdatedAt by {
      forall i | p <= i < |rows| ensures rows[i].lastUpdatedAt < row.lastUpdatedAt {
        assert rows[i].lastUpdatedAt <= rows[p].lastUpdatedAt;
      }
    }
  }

  lemma InsertIds(rows: seq<SessionSummary>, row: SessionSummary)
    requires DistinctIds(rows) && row.sessionId !in Ids(rows)
    ensures Ids(InsertDescending(rows, row)) == Ids(rows) + {row.sessionId}
    ensures DistinctIds(InsertDescending(rows, row))
    ensures forall i :: 0 <= i < |InsertDescending(rows, row)| ==>
              InsertDescending(rows, row)[i] == row || InsertDescending(rows, row)[i] in rows
  {
    var p := InsertPosition(rows, row.lastUpdatedAt);
    var r := InsertDescending(rows, row);
    assert forall i :: 0 <= i < p ==> r[i] == rows[i];
    assert r[p] == row;
    assert forall i :: p < i < |r| ==> r[i] == rows[i - 1];
    forall x | x in Ids(r) ensures x in Ids(rows) + {row.sessionId} {
      var i :| 0 <= i < |r| && r[i].sessionId == x;
      if i < p { assert rows[i].sessionId == x; }
      else if i > p { assert rows[i - 1].sessionId == x; }
    }
    forall x | x in Ids(rows) ensures x in Ids(r) {
      var i :| 0 <= i < |rows| && rows[i].sessionId == x;
      if i < p { assert r[i].sessionId == x; } else { assert r[i + 1].sessionId == x; }
    }
    assert row.sessionId in Ids(r) by { assert r[p].sessionId == row.sessionId; }
    forall i, j | 0 <= i < j < |r| ensures r[i].sessionId != r[j].sessionId {
      if i == p { assert r[j].sessionId in Ids(rows); }
      else if j == p { assert r[i].sessionId in Ids(rows); }
    }
  }

  /** The whole store as a value: session documents, message lists, and the clock. */
  datatype Store = Store(sessions: map<Key, Session>, messages: map<Key, seq<StoredMessage>>, clock: nat)

  /**
   * Timestamps lie in the past; a session's messages are in creation
   * order; a session is touched no earlier than its last message; every
   * message belongs to a session document; no two sessions share a
   * `lastUpdatedAt`.
   */
  ghost predicate StoreValid(st: Store) {
    SessionTimesValid(st) && MessagesBelong(st) && MessagesOrdered(st)
  }

  ghost predicate SessionTimesValid(st: Store) {
    (forall k :: k in st.sessions ==> st.sessions[k].lastUpdatedAt < st.clock)
    && (forall k :: k in st.sessions && st.sessions[k].createdAt.Some? ==> st.sessions[k].createdAt.value < st.clock)
    && (forall a, b :: a in st.sessions && b in st.sessions && a != b ==>
          st.sessions[a].lastUpdatedAt != st.sessions[b].lastUpdatedAt)
  }

  ghost predicate MessagesBelong(st: Store) {
    (forall k :: k in st.messages ==> k in st.sessions)
    && (forall k, i :: k in st.messages && 0 <= i < |st.messages[k]| ==>
          st.messages[k][i].data.createdAt <= st.sessions[k].lastUpdatedAt)
  }

  ghost predicate MessagesOrdered(st: Store) {
    forall k, i, j :: k in st.messages && 0 <= i < j < |st.messages[k]| ==>
      st.messages[k][i].data.createdAt < st.messages[k][j].data.createdAt
  }

  /** The stored messages of a session; an unknown session has none. */
  function MessagesOf(st: Store, k: Key): seq<StoredMessage> {
    if k in st.messages then st.messages[k] else []
  }

  /**
   * `addMessageToSession` on a store value: the message is stamped with
   * the clock, then the session's `lastUpdatedAt` with the next tick.
   */
  function WithMessage(st: Store, k: Key, role: string, content: string, id: string): Store {
    Store(st.sessions[k := Session(if k in st.sessions then st.sessions[k].createdAt else None, st.clock + 1)],
          st.messages[k := MessagesOf(st, k) + [StoredMessage(id, MessageData(role, content, st.clock))]],
          st.clock + 2)
  }

  /** Adding a message keeps the store valid. */
  lemma WithMessageValid(st: Store, k: Key, role: string, content: string, id: string)
    requires StoreValid(st)
    ensures StoreValid(WithMessage(st, k, role, content, id))
  {
    WithMessageTimes(st, k, role, content, id);
    WithMessageBelongs(st, k, role, content, id);
    WithMessageOrdered(st, k, role, content, id);
  }

  lemma WithMessageTimes(st: Store, k: Key, role: string, content: string, id: string)
    requires SessionTimesValid(st)
    ensures SessionTimesValid(WithMessage(st, k, role, content, id))
  {
  }

  lemma WithMessageBelongs(st: Store, k: Key, role: string, content: string, id: string)
    requires SessionTimesValid(st) && MessagesBelong(st)
    ensures MessagesBelong(WithMessage(st, k, role, content, id))
  {
    var r := WithMessage(st, k, role, content, id);
    forall k2, i | k2 in r.messages && 0 <= i < |r.messages[k2]|
      ensures r.messages[k2][i].data.createdAt <= r.sessions[k2].lastUpdatedAt
    {
      if k2 != k { assert r.messages[k2] == st.messages[k2]; }
    }
  }

  lemma WithMessageOrdered(st: Store, k: Key, role: string, content: string, id: string)
    requires SessionTimesValid(st) && MessagesBelong(st) && MessagesOrdered(st)
    ensures MessagesOrdered(WithMessage(st, k, role, content, id))
  {
  }

  /**
   * The message goes last in its session, the session becomes the most
   * recently updated one and keeps its `createdAt`, and no other session
   * changes.
   */
  lemma WithMessageEffect(st: Store, k: Key, role: string, content: string, id: string)
    requires StoreValid(st)
    ensures var r := WithMessage(st, k, role, content, id);
            MessagesOf(r, k) == MessagesOf(st, k) + [StoredMessage(id, MessageData(role, content, st.clock))]
            && k in r.sessions && (k in st.sessions ==> r.sessions[k].createdAt == st.sessions[k].createdAt)
            && (forall k' :: k' in st.sessions ==> st.sessions[k'].lastUpdatedAt < r.sessions[k].lastUpdatedAt)
            && (forall k' :: k' != k ==> MessagesOf(r, k') == MessagesOf(st, k'))
            && (forall k' :: k' != k && k' in st.sessions ==> k' in r.sessions && r.sessions[k'] == st.sessions[k'])
  {
  }

  /** The message data of stored messages, in order. */
  function DataOf(ms: seq<StoredMessage>): (r: seq<MessageData>)
    ensures |r| == |ms| && forall i :: 0 <= i < |ms| ==> r[i] == ms[i].data
  {
    if ms == [] then [] else [ms[0].data] + DataOf(ms[1..])
  }

  lemma {:induction false} DataOfAppend(ms: seq<StoredMessage>, m: StoredMessage)
    ensures DataOf(ms + [m]) == DataOf(ms) + [m.data]
  {
    if ms != [] {
      assert (ms + [m])[1..] == ms[1..] + [m];
      DataOfAppend(ms[1..], m);
    }
  }

  class ChatStore {
    var sessions: map<Key, Session>
    var messages: map<Key, seq<StoredMessage>>
    /** The next value of `serverTimestamp()`. */
    var clock: nat

    function State(): Store
      reads this
    {
      Store(sessions, messages, clock)
    }

    ghost predicate Valid()
      reads this
    {
      StoreValid(State())
    }

    /** The stored messages of a session; an unknown session has none. */
    function Messages(k: Key): seq<StoredMessage>
      reads this
    {
      MessagesOf(State(), k)
    }

    /** The ids of a user's sessions. */
    function SessionIds(userId: string): set<string>
      reads this
    {
      set k | k in sessions && k.0 == userId :: k.1
    }

    constructor ()
      ensures Valid() && sessions == map[] && messages == map[] && clock == 0
    {
      sessions := map[];
      messages := map[];
      clock := 0;
    }

    /**
     * `addMessageToSession`: a new message document stamped with the server
     * time, then a merge write of `lastUpdatedAt` into the session document,
     * which creates it if it is missing and keeps its `createdAt`.
     */
    method AddMessageToSession(userId: string, sessionId: string, role: string, content: string, freshId: string)
      returns (id: string)
      requires Valid()
      requires forall i :: 0 <= i < |Messages((userId, sessionId))| ==> Messages((userId, sessionId))[i].id != freshId
      modifies this
      ensures Valid() && id == freshId
      ensures State() == WithMessage(old(State()), (userId, sessionId), role, content, freshId)
    {
      var k := (userId, sessionId);
      ghost var next := WithMessage(State(), k, role, content, freshId);
      WithMessageValid(State(), k, role, content, freshId);
      var stamp := clock;
      messages := messages[k := Messages(k) + [StoredMessage(freshId, MessageData(role, content, stamp))]];
      clock := clock + 1;
      var created := if k in sessions then sessions[k].createdAt else None;
      sessions := sessions[k := Session(created, clock)];
      clock := clock + 1;
      id := freshId;
      assert State() == next;
    }

    /** `createNewSession`: both timestamps come from the same write. */
    method CreateNewSession(userId: string, freshId: string) returns (id: string)
      requires Valid() && (userId, freshId) !in sessions
      modifies this
      ensures Valid()
      ensures id == freshId && clock == old(clock) + 1 && messages == old(messages)
      ensures sessions == old(sessions)[(userId, id) := Session(Some(old(clock)), old(clock))]
    {
      sessions := sessions[(userId, freshId) := Session(Some(clock), clock)];
      clock := clock + 1;
      id := freshId;
    }

    /** `getSessionMessages`: the message data in ascending `createdAt` order; [] for an empty session. */
    function GetSessionMessages(userId: string, sessionId: string): (r: seq<MessageData>)
      requires Valid()
      reads this
      ensures |r| == |Messages((userId, sessionId))|
      ensures forall i :: 0 <= i < |r| ==> r[i] == Messages((userId, sessionId))[i].data
      ensures Ascending(r)
    {
      DataOf(Messages((userId, sessionId)))
    }

    /**
     * `getUserSessions`: the query `orderBy("lastUpdatedAt", "desc")`,
     * computed by inserting each of the user's sessions into a sorted list.
     */
    /** The `lastUpdatedAt` of each of a user's sessions, by session id. */
    function UserTimes(userId: string): (m: map<string, nat>)
      reads this
      ensures m.Keys == SessionIds(userId)
      ensures forall id :: id in m ==> (userId, id) in sessions && m[id] == sessions[(userId, id)].lastUpdatedAt
    {
      map id | id in SessionIds(userId) :: sessions[(userId, id)].lastUpdatedAt
    }

    method GetUserSessions(userId: string) returns (rows: seq<SessionSummary>)
      requires Valid()
      ensures Descending(rows) && DistinctIds(rows)
      ensures Ids(rows) == SessionIds(userId)
      ensures forall i :: 0 <= i < |rows| ==>
                (userId, rows[i].sessionId) in sessions
                && rows[i].lastUpdatedAt == sessions[(userId, rows[i].sessionId)].lastUpdatedAt
    {
      var times := UserTimes(userId);
      assert forall a, b :: a in times && b in times && a != b ==> times[a] != times[b] by {
        forall a, b | a in times && b in times && a != b ensures times[a] != times[b] {
          assert (userId, a) != (userId, b);
        }
      }
      rows := SortByTime(times);
    }
  }

  /** The rows agree with `times`. */
  predicate RowsFrom(rows: seq<SessionSummary>, times: map<string, nat>) {
    forall i :: 0 <= i < |rows| ==> rows[i].sessionId in times && rows[i].lastUpdatedAt == times[rows[i].sessionId]
  }

  /** One insertion step of `SortByTime` keeps its loop invariant. */
  lemma InsertStep(rows: seq<SessionSummary>, times: map<string, nat>, id: string)
    requires forall a, b :: a in times && b in times && a != b ==> times[a] != times[b]
    requires Descending(rows) && DistinctIds(rows) && RowsFrom(rows, times)
    requires id in times && id !in Ids(rows)
    ensures var r := InsertDescending(rows, SessionSummary(id, times[id]));
            Descending(r) && DistinctIds(r) && RowsFrom(r, times) && Ids(r) == Ids(rows) + {id}
  {
    var row := SessionSummary(id, times[id]);
    forall i | 0 <= i < |rows| ensures rows[i].lastUpdatedAt != row.lastUpdatedAt {
      assert rows[i].sessionId in Ids(rows);
    }
    InsertKeepsDescending(rows, row);
    InsertIds(rows, row);
    var r := InsertDescending(rows, row);
    forall i | 0 <= i < |r| ensures r[i].sessionId in times && r[i].lastUpdatedAt == times[r[i].sessionId] {
      if r[i] != row {
        var j :| 0 <= j < |rows| && rows[j] == r[i];
      }
    }
  }

  /** The loop state of `SortByTime`: `rows` holds the sessions done so far, sorted; `todo` the rest. */
  predicate SortState(rows: seq<SessionSummary>, todo: set<string>, times: map<string, nat>) {
    (forall x :: x in todo ==> x !in Ids(rows))
    && todo + Ids(rows) == times.Keys
    && Descending(rows) && DistinctIds(rows) && RowsFrom(rows, times)
  }

  lemma SortStep(rows: seq<SessionSummary>, todo: set<string>, times: map<string, nat>, id: string)
    requires forall a, b :: a in times && b in times && a != b ==> times[a] != times[b]
    requires SortState(rows, todo, times) && id in todo
    ensures SortState(InsertDescending(rows, SessionSummary(id, times[id])), todo - {id}, times)
  {
    InsertStep(rows, times, id);
  }

  /**
   * The rows of `times` in descending time order, built by insertion. With
   * distinct times, the listing is exact and duplicate-free.
   */
  method SortByTime(times: map<string, nat>) returns (rows: seq<SessionSummary>)
    requires forall a, b :: a in times && b in times && a != b ==> times[a] != times[b]
    ensures Descending(rows) && DistinctIds(rows) && RowsFrom(rows, times)
    ensures Ids(rows) == times.Keys
  {
    var todo := times.Keys;
    rows := [];
    while todo != {}
      invariant SortState(rows, todo, times)
      decreases |todo|
    {
      var id :| id in todo;
      SortStep(rows, todo, times, id);
      rows := InsertDescending(rows, SessionSummary(id, times[id]));
      todo := todo - {id};
    }
  }
}
