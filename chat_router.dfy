/**
 * The chat endpoints of api/chat_router.py over the chat collection: one chat
 * turn (load an owned session, number the turn, ask the model, append the
 * user/assistant pair, then update the session or create one named after the
 * prompt), the owner's session list, one session, rename and delete.
 *
 * The chat id is not checked for format first: `ObjectId(chat_id)` raises on
 * a malformed id and the request ends in a 500.
 */
module ChatRouter {
  import opened Common
  import opened Schemas
  import opened DocumentStore
  import opened GeminiService

  const ChatNameLength := 50

  const SessionNotFound := HttpError(404, "Chat session not found.")
  const ChatNotFound := HttpError(404, "Chat not found")
  const RenameNotFound := HttpError(404, "Chat not found or you do not have permission to rename it.")
  const DeleteNotFound := HttpError(404, "Chat not found or you do not have permission to delete it.")

  /** `if chat_id:` a chat id was sent and is not empty. */
  predicate ChatIdGiven(chatId: Option<string>)
  {
    chatId.Some? && chatId.value != ""
  }

  /** The filter `{"_id": ..., "user_id": user_id}` matches session `k`. */
  predicate OwnedBy(docs: map<Oid, ChatSession>, k: Oid, userId: string)
  {
    k in docs && docs[k].userId == userId
  }

  function SessionOwner(s: ChatSession): string
  {
    s.userId
  }

  function SessionUpdatedAt(s: ChatSession): int
  {
    s.updatedAt
  }

  /** The turn number of the next pair: one more than the last message's number (absent counts as 0), or 1. */
  function NextTurn(history: seq<ChatMessage>): int
  {
    if history == [] then 1
    else
      var last := history[|history| - 1].turnNumber;
      (if last.Some? then last.value else 0) + 1
  }

  /** The clock readings of one turn: the two messages' timestamps and the session's. */
  datatype TurnClock = TurnClock(userAt: Time, replyAt: Time, createdAt: Time, updatedAt: Time)

  /** The pair a turn appends: the prompt from the user, then the reply with its citations. */
  function TurnPair(prompt: string, reply: string, citations: seq<SourceCitation>, turn: int, clock: TurnClock)
    : seq<ChatMessage>
  {
    [ChatMessage("user", prompt, clock.userAt, Some(turn), None),
     ChatMessage("assistant", reply, clock.replyAt, Some(turn), Some(citations))]
  }

  /** `prompt[:50]`. */
  function ChatName(prompt: string): (name: string)
    ensures |name| == if |prompt| < ChatNameLength then |prompt| else ChatNameLength
    ensures IsPrefix(name, prompt)
  {
    if |prompt| < ChatNameLength then prompt else prompt[..ChatNameLength]
  }

  /**
   * `handle_chat`: the response and the chat collection afterwards, for the
   * system instruction built from the caller's profile. `newId` is the id the
   * store gives an inserted session. A reply without text cannot
   * become the assistant's `ChatMessage`: the request ends in a 500 before
   * anything is written.
   */
  function ChatTurn(docs: map<Oid, ChatSession>, caller: CurrentUser, prompt: string, chatId: Option<string>,
                    instruction: string, generate: Generator, clock: TurnClock, newId: Oid)
    : (r: (Result<ChatTurnResponse>, map<Oid, ChatSession>))
    ensures r.0.Err? ==> r.1 == docs
    ensures forall k :: k in docs ==> k in r.1
    ensures newId !in docs ==> forall k :: k in docs && r.1[k] != docs[k] ==>
      ChatIdGiven(chatId) && ParseObjectId(chatId.value) == Some(k) && OwnedBy(docs, k, caller.id)
  {
    if ChatIdGiven(chatId) then
      var parsed := ParseObjectId(chatId.value);
      if parsed.None? then (Err(InternalError), docs)
      else if !OwnedBy(docs, parsed.value, caller.id) then (Err(SessionNotFound), docs)
      else
        var s := docs[parsed.value];
        var turn := NextTurn(s.history);
        var reply := ChatReply(prompt, s.history, instruction, generate);
        if reply.0.None? then (Err(InternalError), docs)
        else
          (Ok(ChatTurnResponse(chatId.value, reply.0.value, turn, reply.1)),
           docs[parsed.value := s.(history := s.history + TurnPair(prompt, reply.0.value, reply.1, turn, clock),
                                   updatedAt := clock.updatedAt)])
    else
      var reply := ChatReply(prompt, [], instruction, generate);
      if reply.0.None? then (Err(InternalError), docs)
      else
        (Ok(ChatTurnResponse(newId, reply.0.value, 1, reply.1)),
         docs[newId := ChatSession(caller.id, Some(ChatName(prompt)), clock.createdAt, clock.updatedAt,
                                   TurnPair(prompt, reply.0.value, reply.1, 1, clock))])
  }

  // ---------------------------------------------------------------- properties of a turn

  /**
   * Without a chat id, a reply with text makes one new session owned by the
   * caller, named after the prompt, stamped with the turn's clock and holding
   * turn 1: the prompt from the user without citations, then the reply with
   * them. No other session changes. A reply without text writes nothing.
   */
  lemma NewSessionTurn(docs: map<Oid, ChatSession>, caller: CurrentUser, prompt: string, chatId: Option<string>,
                       instruction: string, generate: Generator, clock: TurnClock, newId: Oid)
    requires !ChatIdGiven(chatId) && newId !in docs
    ensures var (r, after) := ChatTurn(docs, caller, prompt, chatId, instruction, generate, clock, newId);
      var reply := ChatReply(prompt, [], instruction, generate);
      && (reply.0.None? ==> r == Err(InternalError) && after == docs)
      && (reply.0.Some? ==>
            && r.Ok? && r.value.turnNumber == 1 && r.value.chatId == newId
            && r.value.aiResponse == reply.0.value && r.value.citations == reply.1
            && after.Keys == docs.Keys + {newId}
            && (forall k :: k in docs ==> after[k] == docs[k])
            && after[newId].userId == caller.id
            && after[newId].chatName == Some(ChatName(prompt))
            && after[newId].createdAt == clock.createdAt && after[newId].updatedAt == clock.updatedAt
            && after[newId].history == TurnPair(prompt, r.value.aiResponse, r.value.citations, 1, clock)
            && after[newId].history[0] == ChatMessage("user", prompt, clock.userAt, Some(1), None)
            && after[newId].history[1] == ChatMessage("assistant", r.value.aiResponse, clock.replyAt, Some(1), Some(r.value.citations)))
  {
  }

  /**
   * With an owned session and a reply with text, the session gains exactly
   * one pair numbered `NextTurn`: the user's prompt without citations, then
   * the reply with them; its name, owner and creation time stay, and no other
   * session changes. A reply without text writes nothing.
   */
  lemma ExistingSessionTurn(docs: map<Oid, ChatSession>, caller: CurrentUser, prompt: string, chatId: Option<string>,
                            instruction: string, generate: Generator, clock: TurnClock, newId: Oid, k: Oid)
    requires ChatIdGiven(chatId) && ParseObjectId(chatId.value) == Some(k) && OwnedBy(docs, k, caller.id)
    ensures var (r, after) := ChatTurn(docs, caller, prompt, chatId, instruction, generate, clock, newId);
      var reply := ChatReply(prompt, docs[k].history, instruction, generate);
      reply.0.None? ==> r == Err(InternalError) && after == docs
    ensures var (r, after) := ChatTurn(docs, caller, prompt, chatId, instruction, generate, clock, newId);
      var reply := ChatReply(prompt, docs[k].history, instruction, generate);
      var h := docs[k].history;
      reply.0.Some? ==>
      && r.Ok? && r.value.turnNumber == NextTurn(h) && r.value.chatId == chatId.value
      && r.value.aiResponse == reply.0.value && r.value.citations == reply.1
      && after.Keys == docs.Keys
      && (forall k' :: k' in docs && k' != k ==> after[k'] == docs[k'])
      && after[k].chatName == docs[k].chatName && after[k].createdAt == docs[k].createdAt
      && after[k].userId == docs[k].userId && after[k].updatedAt == clock.updatedAt
      && |after[k].history| == |h| + 2 && after[k].history[..|h|] == h
      && after[k].history[|h|].role == "user" && after[k].history[|h|].content == prompt
      && after[k].history[|h| + 1].role == "assistant" && after[k].history[|h| + 1].content == r.value.aiResponse
      && after[k].history[|h|].turnNumber == after[k].history[|h| + 1].turnNumber == Some(NextTurn(h))
      && after[k].history[|h|].citations.None?
      && after[k].history[|h| + 1].citations == Some(r.value.citations)
  {
    var (r, after) := ChatTurn(docs, caller, prompt, chatId, instruction, generate, clock, newId);
    if r.Ok? {
      assert after[k].history == docs[k].history + after[k].history[|docs[k].history|..];
    }
  }

  /** A malformed id fails with 500, a session that is missing or someone else's with 404; nothing is written. */
  lemma RejectedTurn(docs: map<Oid, ChatSession>, caller: CurrentUser, prompt: string, chatId: Option<string>,
                     instruction: string, generate: Generator, clock: TurnClock, newId: Oid)
    requires ChatIdGiven(chatId)
    requires ParseObjectId(chatId.value).None? || !OwnedBy(docs, ParseObjectId(chatId.value).value, caller.id)
    ensures var (r, after) := ChatTurn(docs, caller, prompt, chatId, instruction, generate, clock, newId);
      && after == docs
      && r == Err(if ParseObjectId(chatId.value).None? then InternalError else SessionNotFound)
  {
  }

  /**
   * A history made of turns 1, 2, ... each as a user message without
   * citations followed by an assistant message with them.
   */
  predicate PairedTurns(h: seq<ChatMessage>)
  {
    |h| % 2 == 0 && forall i :: 0 <= i < |h| ==> InPlace(h[i], i)
  }

  predicate InPlace(m: ChatMessage, i: int)
  {
    && m.turnNumber == Some(i / 2 + 1)
    && (if i % 2 == 0 then m.role == "user" && m.citations.None?
        else m.role == "assistant" && m.citations.Some?)
  }

  /** On a paired history the next turn number is the number of pairs plus one. */
  lemma NextTurnCountsPairs(h: seq<ChatMessage>)
    requires PairedTurns(h)
    ensures NextTurn(h) == |h| / 2 + 1
  {
    if h != [] {
      assert InPlace(h[|h| - 1], |h| - 1);
    }
  }

  /** Appending a turn's pair keeps a history paired. */
  lemma TurnPairKeepsPaired(h: seq<ChatMessage>, prompt: string, reply: string, citations: seq<SourceCitation>, clock: TurnClock)
    requires PairedTurns(h)
    ensures PairedTurns(h + TurnPair(prompt, reply, citations, NextTurn(h), clock))
  {
    NextTurnCountsPairs(h);
    var h' := h + TurnPair(prompt, reply, citations, NextTurn(h), clock);
    forall i | 0 <= i < |h'|
      ensures InPlace(h'[i], i)
    {
      if i < |h| {
        assert h'[i] == h[i];
      }
    }
  }

  /** A turn keeps every session's history paired. */
  lemma ChatTurnKeepsPaired(docs: map<Oid, ChatSession>, caller: CurrentUser, prompt: string, chatId: Option<string>,
                            instruction: string, generate: Generator, clock: TurnClock, newId: Oid)
    requires forall k :: k in docs ==> PairedTurns(docs[k].history)
    ensures var after := ChatTurn(docs, caller, prompt, chatId, instruction, generate, clock, newId).1;
      forall k :: k in after ==> PairedTurns(after[k].history)
  {
    var after := ChatTurn(docs, caller, prompt, chatId, instruction, generate, clock, newId).1;
    var reply := ChatReply(prompt, [], instruction, generate);
    if ChatIdGiven(chatId) {
      var parsed := ParseObjectId(chatId.value);
      if parsed.Some? && OwnedBy(docs, parsed.value, caller.id) {
        var s := docs[parsed.value];
        var reply := ChatReply(prompt, s.history, instruction, generate);
        if reply.0.Some? {
          TurnPairKeepsPaired(s.history, prompt, reply.0.value, reply.1, clock);
        }
      }
    } else if reply.0.Some? {
      TurnPairKeepsPaired([], prompt, reply.0.value, reply.1, clock);
    }
  }

  // ---------------------------------------------------------------- the endpoints

  /** `handle_chat`. */
  method HandleChat(chats: Collection<ChatSession>, caller: CurrentUser, prompt: string, chatId: Option<string>,
                    generate: Generator, clock: TurnClock, newId: Oid)
    returns (r: Result<ChatTurnResponse>)
    requires newId !in chats.docs
    modifies chats
    ensures (r, chats.docs) == ChatTurn(old(chats.docs), caller, prompt, chatId, SystemPromptFor(caller.doc.profile), generate, clock, newId)
  {
    var history: seq<ChatMessage> := [];
    var turn := 1;
    var key := newId;
    if ChatIdGiven(chatId) {
      var parsed := ParseObjectId(chatId.value);
      if parsed.None? {
        return Err(InternalError);
      }
      key := parsed.value;
      if !(key in chats.docs && chats.docs[key].userId == caller.id) {
        return Err(SessionNotFound);
      }
      history := chats.docs[key].history;
      if history != [] {
        var last := history[|history| - 1].turnNumber;
        turn := (if last.Some? then last.value else 0) + 1;
      }
    }
    assert turn == NextTurn(history);
    ghost var before := history;
    var text, citations := GetAiResponse(prompt, history, caller.doc.profile, generate);
    if text.None? {
      return Err(InternalError);
    }
    var reply := text.value;
    history := history + [ChatMessage("user", prompt, clock.userAt, Some(turn), None)];
    history := history + [ChatMessage("assistant", reply, clock.replyAt, Some(turn), Some(citations))];
    assert history == before + TurnPair(prompt, reply, citations, turn, clock);
    if ChatIdGiven(chatId) {
      chats.docs := chats.docs[key := chats.docs[key].(history := history, updatedAt := clock.updatedAt)];
      r := Ok(ChatTurnResponse(chatId.value, reply, turn, citations));
    } else {
      assert history == TurnPair(prompt, reply, citations, 1, clock);
      var name := if |prompt| < ChatNameLength then prompt else prompt[..ChatNameLength];
      chats.docs := chats.docs[newId := ChatSession(caller.id, Some(name), clock.createdAt, clock.updatedAt, history)];
      r := Ok(ChatTurnResponse(newId, reply, turn, citations));
    }
  }

  /** `get_all_chats`: the caller's sessions, most recently updated first. */
  method GetAllChats(chats: Collection<ChatSession>, caller: CurrentUser) returns (r: seq<(Oid, ChatSession)>)
    ensures OwnedListing(chats.docs, caller.id, SessionOwner, SessionUpdatedAt, r)
  {
    r := FindOwnedSortedDesc(chats.docs, caller.id, SessionOwner, SessionUpdatedAt);
  }

  /** `get_single_chat`: the caller's session with this id. */
  method GetSingleChat(chats: Collection<ChatSession>, caller: CurrentUser, chatId: string)
    returns (r: Result<(Oid, ChatSession)>)
    ensures ParseObjectId(chatId).None? ==> r == Err(InternalError)
    ensures ParseObjectId(chatId).Some? ==>
      var k := ParseObjectId(chatId).value;
      && (OwnedBy(chats.docs, k, caller.id) ==> r == Ok((k, chats.docs[k])))
      && (!OwnedBy(chats.docs, k, caller.id) ==> r == Err(ChatNotFound))
  {
    var parsed := ParseObjectId(chatId);
    if parsed.None? {
      return Err(InternalError);
    }
    var k := parsed.value;
    if k in chats.docs && chats.docs[k].userId == caller.id {
      r := Ok((k, chats.docs[k]));
    } else {
      r := Err(ChatNotFound);
    }
  }

  /** `rename_chat`: only the caller's session is renamed; the response echoes the new name. */
  method RenameChat(chats: Collection<ChatSession>, caller: CurrentUser, chatId: string, newName: string, now: Time)
    returns (r: Result<string>)
    modifies chats
    ensures !ValidChatName(newName) ==> r == Err(ValidationError) && chats.docs == old(chats.docs)
    ensures ValidChatName(newName) && ParseObjectId(chatId).None? ==> r == Err(InternalError) && chats.docs == old(chats.docs)
    ensures ValidChatName(newName) && ParseObjectId(chatId).Some? ==>
      var k := ParseObjectId(chatId).value;
      && (!OwnedBy(old(chats.docs), k, caller.id) ==> r == Err(RenameNotFound) && chats.docs == old(chats.docs))
      && (OwnedBy(old(chats.docs), k, caller.id) ==>
            r == Ok(newName)
            && chats.docs == old(chats.docs)[k := old(chats.docs)[k].(chatName := Some(newName), updatedAt := now)])
  {
    if !ValidChatName(newName) {
      return Err(ValidationError);
    }
    var parsed := ParseObjectId(chatId);
    if parsed.None? {
      return Err(InternalError);
    }
    var k := parsed.value;
    if !(k in chats.docs && chats.docs[k].userId == caller.id) {
      return Err(RenameNotFound);
    }
    chats.docs := chats.docs[k := chats.docs[k].(chatName := Some(newName), updatedAt := now)];
    r := Ok(newName);
  }

  /** `delete_chat`: only the caller's session is removed. */
  method DeleteChat(chats: Collection<ChatSession>, caller: CurrentUser, chatId: string) returns (r: Result<string>)
    modifies chats
    ensures ParseObjectId(chatId).None? ==> r == Err(InternalError) && chats.docs == old(chats.docs)
    ensures ParseObjectId(chatId).Some? ==>
      var k := ParseObjectId(chatId).value;
      && (!OwnedBy(old(chats.docs), k, caller.id) ==> r == Err(DeleteNotFound) && chats.docs == old(chats.docs))
      && (OwnedBy(old(chats.docs), k, caller.id) ==>
            r == Ok("Chat session " + chatId + " deleted successfully.") && chats.docs == old(chats.docs) - {k})
  {
    var parsed := ParseObjectId(chatId);
    if parsed.None? {
      return Err(InternalError);
    }
    var k := parsed.value;
    if !(k in chats.docs && chats.docs[k].userId == caller.id) {
      return Err(DeleteNotFound);
    }
    chats.docs := chats.docs - {k};
    r := Ok("Chat session " + chatId + " deleted successfully.");
  }
}
