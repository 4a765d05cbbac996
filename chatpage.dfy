/**
 * The chat page's state and the handlers that change it: loading the
 * session list, starting a session, and sending a message with an
 * optimistic append that is rolled back when the send fails.
 */
module ChatPage {
  import opened Wrappers
  import opened Js

  datatype Role = User | Ai

  datatype ChatMessage = ChatMessage(role: Role, content: string, createdAt: Option<string>)

  datatype ChatSession = ChatSession(id: string, title: string, createdAt: string, updatedAt: string, messageCount: nat)

  /** The body of `sendChatMessage(sessionId, { content })`. */
  datatype SendRequest = SendRequest(sessionId: string, content: string)

  const NewChatTitle: string := "New Chat"

  /** `prev.slice(0, -1)`: all but the last element; nothing from an empty list. */
  function DropLast<T>(prev: seq<T>): (r: seq<T>)
    ensures |prev| > 0 ==> |r| == |prev| - 1 && r == prev[..|prev| - 1]
    ensures |prev| == 0 ==> r == []
  {
    if |prev| == 0 then [] else prev[..|prev| - 1]
  }

  /** Dropping the last element undoes appending one. */
  lemma DropLastUndoesAppend<T>(prev: seq<T>, m: T)
    ensures DropLast(prev + [m]) == prev
  {
    assert (prev + [m])[..|prev|] == prev;
  }

  /** `!newMessage.trim()`: the input is empty or only whitespace. */
  lemma BlankInput(s: string)
    ensures Trim(s) == [] <==> forall i :: 0 <= i < |s| ==> IsSpace(s[i])
  {
    TrimIsSlice(s);
    if Trim(s) != [] {
      assert Trim(s)[0] == s[LeadingSpaces(s)];
    }
  }

  /** The page component's state. */
  class Chat {
    var sessions: seq<ChatSession>
    var currentSession: Option<ChatSession>
    var messages: seq<ChatMessage>
    var loading: bool
    var sendingMessage: bool
    var newMessage: string

    constructor()
      ensures sessions == [] && currentSession.None? && messages == []
      ensures loading && !sendingMessage && newMessage == ""
    {
      sessions := [];
      currentSession := None;
      messages := [];
      loading := true;
      sendingMessage := false;
      newMessage := "";
    }

    /**
     * `loadSessions()` with the reply of `getChatSessions`: the list is
     * installed, and its first session selected only if none is yet.
     */
    method LoadSessions(response: Result<seq<ChatSession>>)
      modifies this
      ensures !loading
      ensures messages == old(messages) && sendingMessage == old(sendingMessage) && newMessage == old(newMessage)
      ensures response.Err? ==> sessions == old(sessions) && currentSession == old(currentSession)
      ensures response.Ok? ==> sessions == response.value
      ensures response.Ok? && |response.value| > 0 && old(currentSession).None? ==>
                currentSession == Some(response.value[0])
      ensures response.Ok? && !(|response.value| > 0 && old(currentSession).None?) ==>
                currentSession == old(currentSession)
    {
      loading := true;
      if response.Ok? {
        var sessionsData := response.value;
        sessions := sessionsData;
        if |sessionsData| > 0 && currentSession.None? {
          currentSession := Some(sessionsData[0]);
        }
      }
      loading := false;
    }

    /**
     * `createNewSession()` with the id `createChatSession` returned and the
     * two clock readings `createdAt` and `updatedAt` (the page reads the
     * clock once for each): the new session goes first, is selected, and
     * starts with no messages.
     */
    method CreateNewSession(response: Result<string>, createdAt: string, updatedAt: string)
      modifies this
      ensures loading == old(loading) && sendingMessage == old(sendingMessage) && newMessage == old(newMessage)
      ensures response.Err? ==>
                sessions == old(sessions) && currentSession == old(currentSession) && messages == old(messages)
      ensures response.Ok? ==>
                var created := ChatSession(response.value, NewChatTitle, createdAt, updatedAt, 0);
                sessions == [created] + old(sessions) && currentSession == Some(created) && messages == []
    {
      if response.Err? {
        return;
      }
      var newSession := ChatSession(response.value, NewChatTitle, createdAt, updatedAt, 0);
      sessions := [newSession] + sessions;
      currentSession := Some(newSession);
      messages := [];
    }

    /**
     * The part of `sendMessage()` before the request: with a non-blank
     * input and a selected session, the trimmed text is appended as the
     * user's message, the input cleared and the page marked sending.
     */
    method BeginSend(now: string) returns (request: Option<SendRequest>)
      modifies this
      ensures sessions == old(sessions) && currentSession == old(currentSession) && loading == old(loading)
      ensures request.None? <==> Trim(old(newMessage)) == [] || old(currentSession).None?
      ensures request.None? ==>
                messages == old(messages) && newMessage == old(newMessage) && sendingMessage == old(sendingMessage)
      ensures request.Some? ==>
                request.value == SendRequest(old(currentSession).value.id, Trim(old(newMessage)))
                && messages == old(messages) + [ChatMessage(User, Trim(old(newMessage)), Some(now))]
                && newMessage == "" && sendingMessage
    {
      if Trim(newMessage) == [] || currentSession.None? {
        return None;
      }
      var userMessage := ChatMessage(User, Trim(newMessage), Some(now));
      messages := messages + [userMessage];
      newMessage := "";
      sendingMessage := true;
      request := Some(SendRequest(currentSession.value.id, userMessage.content));
    }

    /**
     * The part of `sendMessage()` after the request: the reply is
     * appended, or on failure the last message is dropped; either way
     * the page stops sending.
     */
    method FinishSend(reply: Result<ChatMessage>)
      modifies this
      ensures sessions == old(sessions) && currentSession == old(currentSession) && loading == old(loading)
      ensures newMessage == old(newMessage) && !sendingMessage
      ensures reply.Ok? ==> messages == old(messages) + [reply.value]
      ensures reply.Err? ==> messages == DropLast(old(messages))
    {
      if reply.Ok? {
        messages := messages + [reply.value];
      } else {
        messages := DropLast(messages);
      }
      sendingMessage := false;
    }

    /**
     * `sendMessage()` at time `now`, with `reply` standing for the
     * outcome of the request: a blank input or no session does nothing;
     * otherwise one user message is followed by the reply, or the list is
     * back where it was.
     */
    method SendMessage(reply: Result<ChatMessage>, now: string) returns (request: Option<SendRequest>)
      modifies this
      ensures sessions == old(sessions) && currentSession == old(currentSession) && loading == old(loading)
      ensures request.None? <==> Trim(old(newMessage)) == [] || old(currentSession).None?
      ensures request.None? ==>
                messages == old(messages) && newMessage == old(newMessage) && sendingMessage == old(sendingMessage)
      ensures request.Some? ==>
                request.value == SendRequest(old(currentSession).value.id, Trim(old(newMessage)))
                && newMessage == "" && !sendingMessage
      ensures request.Some? && reply.Ok? ==>
                messages == old(messages) + [ChatMessage(User, Trim(old(newMessage)), Some(now)), reply.value]
      ensures request.Some? && reply.Err? ==> messages == old(messages)
    {
      request := BeginSend(now);
      if request.None? {
        return;
      }
      ghost var sent := messages;
      FinishSend(reply);
      if reply.Err? {
        DropLastUndoesAppend(old(messages), ChatMessage(User, Trim(old(newMessage)), Some(now)));
      } else {
        assert messages == sent + [reply.value];
      }
    }
  }
}
