/**
 * The chat routes (backend/src/routes/chat.ts): POST /message, GET /history/:sessionId
 * and POST /new, over the store. Each `uuidv4()` the routes call is a parameter that
 * the caller promises is fresh. An error a route passes to next() is the Failure
 * of its Result, which the error handler turns into the response.
 */
module Chat {
  import opened Types
  import opened Validation
  import opened Database
  import opened Llm
  import opened ErrorHandler

  /** The assistant turn stored when generation fails. */
  const APOLOGY := "I apologize, but I'm having trouble processing your request right now. "
    + "Please try again in a moment, or contact our support team at support@techstyle.com for immediate assistance."

  const EmptyAfterSanitization := ApiError("Message cannot be empty after sanitization", 400, "EMPTY_MESSAGE")
  const InvalidSessionId := ApiError("Invalid session ID format", 400, "INVALID_SESSION_ID")
  const ConversationNotFound := ApiError("Conversation not found", 404, "CONVERSATION_NOT_FOUND")

  /** The body of POST /new. */
  datatype NewConversationResponse = NewConversationResponse(sessionId: string, message: string)

  /** A store failure is an ordinary Error: the error handler hides it behind a 500. */
  function StoreFailure(e: StoreError): AppError {
    OtherFailure(e.Message())
  }

  /** The conversation a message joins: the session id when it is a non-empty string, else a new one. */
  function SessionFor(sessionId: Option<string>, freshId: string): string {
    if sessionId.Some? && sessionId.value != "" then sessionId.value else freshId
  }

  /** The assistant turn stored for a generation: the reply, or `apology` when it failed. */
  function StoredReply(result: Result<string, LLMError>, apology: string): string {
    if result.Success? then result.value else apology
  }

  /**
   * `after` holds conversation `cid`, last touched at `now`: when `before` had it,
   * the same row with only its update time changed; otherwise a new row with that
   * id, no metadata and a creation time after `since` and before `until`. Every
   * other conversation is as in `before`.
   */
  ghost predicate Joined(
    before: map<string, Conversation>, after: map<string, Conversation>, cid: string,
    since: Timestamp, until: Timestamp, now: Timestamp)
  {
    && after.Keys == before.Keys + {cid}
    && (forall id :: id in before && id != cid ==> after[id] == before[id])
    && (cid in before ==> after[cid] == before[cid].(updatedAt := now))
    && (cid !in before ==>
          && since < after[cid].createdAt < until
          && after[cid] == Conversation(cid, after[cid].createdAt, now, None))
  }

  /** Opening the conversation (a no-op, or a creation) and then touching it joins it. */
  lemma JoinedByTouch(
    before: map<string, Conversation>, joined: map<string, Conversation>, cid: string,
    since: Timestamp, openedAt: Timestamp, until: Timestamp, now: Timestamp)
    requires cid in before ==> joined == before
    requires cid !in before ==> since < openedAt < until && joined == before[cid := Conversation(cid, openedAt, openedAt, None)]
    ensures Joined(before, Touch(joined, cid, now), cid, since, until, now)
  {
  }

  /**
   * The session step of POST /message: a supplied session id names the conversation,
   * created on first use; without one a new conversation is started.
   */
  method OpenConversation(store: Store, sessionId: Option<string>, freshSessionId: string)
    returns (r: Result<string, AppError>)
    requires store.Valid()
    requires freshSessionId !in store.conversations
    modifies store
    ensures store.Valid() && store.initialized == old(store.initialized)
    ensures store.messages == old(store.messages) && old(store.clock) <= store.clock
    ensures !old(store.initialized) ==> r == Failure(StoreFailure(NotInitialized)) && unchanged(store)
    ensures old(store.initialized) ==>
      var cid := SessionFor(sessionId, freshSessionId);
      && r == Success(cid)
      && (cid in old(store.conversations) ==> store.conversations == old(store.conversations))
      && (cid !in old(store.conversations) ==>
            && old(store.clock) < store.clock
            && store.conversations == old(store.conversations)[cid := Conversation(cid, store.clock, store.clock, None)])
  {
    if sessionId.Some? && sessionId.value != "" {
      var existing := store.GetConversation(sessionId.value);
      if existing.Failure? {
        return Failure(StoreFailure(existing.error));
      }
      if existing.value.None? {
        var created := store.CreateConversation(sessionId.value);
      }
      r := Success(sessionId.value);
    } else {
      var created := store.CreateConversation(freshSessionId);
      if created.Failure? {
        return Failure(StoreFailure(created.error));
      }
      r := Success(freshSessionId);
    }
  }

  /** The first half of the exchange step: read the context, then store the user turn. */
  method SaveUserTurn(
    store: Store, conversationId: string, text: string, maxHistory: nat, userMessageId: string, aiMessageId: string)
    returns (recent: seq<Message>)
    requires store.Valid() && store.initialized
    requires !IdTaken(store.messages, userMessageId) && !IdTaken(store.messages, aiMessageId)
    requires userMessageId != aiMessageId
    modifies store
    ensures store.Valid() && store.initialized
    ensures recent == RecentMessages(old(store.messages), conversationId, maxHistory)
    ensures store.messages == old(store.messages) + [Message(userMessageId, conversationId, User, text, old(store.clock) + 1)]
    ensures store.clock == old(store.clock) + 2
    ensures store.conversations == Touch(old(store.conversations), conversationId, store.clock)
    ensures !IdTaken(store.messages, aiMessageId)
  {
    recent := store.GetRecentMessages(conversationId, maxHistory).value;
    var saved := store.CreateMessage(userMessageId, conversationId, User, text);
    assert store.messages == old(store.messages) + [saved.value];
  }

  /**
   * The second half: store the reply, or `apology` when generation failed, and
   * answer. The ghost parameters are the tables before the first half and the user
   * turn it stored, so that the effect of the whole exchange can be stated here.
   */
  method SaveReply(
    store: Store, conversationId: string, generation: Generation, aiMessageId: string, apology: string,
    ghost messages0: seq<Message>, ghost conversations0: map<string, Conversation>, ghost user: Message)
    returns (r: Result<ChatResponse, AppError>)
    requires store.Valid() && store.initialized
    requires !IdTaken(store.messages, aiMessageId)
    requires store.messages == messages0 + [user]
    requires store.conversations == Touch(conversations0, conversationId, store.clock)
    modifies store
    ensures store.Valid() && store.initialized
    ensures store.messages == messages0 + [
      user, Message(aiMessageId, conversationId, Ai, StoredReply(generation.result, apology), old(store.clock) + 1)]
    ensures store.clock == old(store.clock) + 2
    ensures store.conversations == Touch(conversations0, conversationId, store.clock)
    ensures generation.result.Success? ==> r == Success(ChatResponse(generation.result.value, conversationId))
    ensures generation.result.Failure? ==> r == Failure(LlmFailure(generation.result.error))
  {
    var saved := store.CreateMessage(aiMessageId, conversationId, Ai, StoredReply(generation.result, apology));
    TouchTwice(conversations0, conversationId, old(store.clock), store.clock);
    assert messages0 + [user] + [saved.value] == messages0 + [user, saved.value];
    if generation.result.Success? {
      r := Success(ChatResponse(generation.result.value, conversationId));
    } else {
      r := Failure(LlmFailure(generation.result.error));
    }
  }

  /**
   * The exchange step of POST /message: read the context, store the user turn,
   * generate, store the reply or, when generation fails, `apology`. `history` is the
   * context the generator was given.
   */
  method RecordExchange(
    store: Store, conversationId: string, text: string, config: GeneratorConfig,
    provider: seq<LLMMessage> -> ProviderOutcome, maxHistory: nat, userMessageId: string, aiMessageId: string,
    apology: string)
    returns (r: Result<ChatResponse, AppError>, ghost history: seq<Message>)
    requires store.Valid() && store.initialized
    requires !IdTaken(store.messages, userMessageId) && !IdTaken(store.messages, aiMessageId)
    requires userMessageId != aiMessageId
    modifies store
    ensures store.Valid() && store.initialized
    ensures history == RecentMessages(old(store.messages), conversationId, maxHistory)
    ensures var generation := GenerateReply(config, history, text, provider);
      && store.messages == old(store.messages) + [
           Message(userMessageId, conversationId, User, text, old(store.clock) + 1),
           Message(aiMessageId, conversationId, Ai, StoredReply(generation.result, apology), old(store.clock) + 3)]
      && store.clock == old(store.clock) + 4
      && store.conversations == Touch(old(store.conversations), conversationId, store.clock)
      && (generation.result.Success? ==> r == Success(ChatResponse(generation.result.value, conversationId)))
      && (generation.result.Failure? ==> r == Failure(LlmFailure(generation.result.error)))
  {
    ghost var messages0, conversations0 := store.messages, store.conversations;
    ghost var user := Message(userMessageId, conversationId, User, text, store.clock + 1);
    var recent := SaveUserTurn(store, conversationId, text, maxHistory, userMessageId, aiMessageId);
    history := recent;
    var generation := GenerateReply(config, recent, text, provider);
    r := SaveReply(store, conversationId, generation, aiMessageId, apology, messages0, conversations0, user);
  }

  /**
   * The session and exchange steps of POST /message for the sanitised text `text`.
   * `history` is the context the generator was given: the conversation's last
   * `maxHistory` turns before this one.
   */
  method Converse(
    store: Store, sessionId: Option<string>, text: string, config: GeneratorConfig,
    provider: seq<LLMMessage> -> ProviderOutcome, maxHistory: nat,
    freshSessionId: string, userMessageId: string, aiMessageId: string)
    returns (r: Result<ChatResponse, AppError>, ghost history: seq<Message>)
    requires store.Valid()
    requires freshSessionId !in store.conversations
    requires !IdTaken(store.messages, userMessageId) && !IdTaken(store.messages, aiMessageId)
    requires userMessageId != aiMessageId
    modifies store
    ensures store.Valid() && store.initialized == old(store.initialized)
    ensures !old(store.initialized) ==> r == Failure(StoreFailure(NotInitialized)) && unchanged(store)
    ensures old(store.initialized) ==>
      var cid := SessionFor(sessionId, freshSessionId);
      var n := |old(store.messages)|;
      var generation := GenerateReply(config, history, text, provider);
      // exactly two rows appended, the user turn and then the assistant turn
      && |store.messages| == n + 2
      // the conversation exists afterwards, created (if new) before the user turn
      // was stored, and was touched last by this exchange
      && Joined(old(store.conversations), store.conversations, cid, old(store.clock), store.messages[n].timestamp, store.clock)
      // the context: the newest turns of this conversation, before the new one
      && history == RecentMessages(old(store.messages), cid, maxHistory)
      && store.messages[..n] == old(store.messages)
      && store.messages[n] == Message(userMessageId, cid, User, text, store.messages[n].timestamp)
      && store.messages[n + 1] == Message(aiMessageId, cid, Ai, StoredReply(generation.result, APOLOGY), store.messages[n + 1].timestamp)
      && old(store.clock) < store.messages[n].timestamp < store.messages[n + 1].timestamp < store.clock
      && ConversationMessages(store.messages, cid) == ConversationMessages(old(store.messages), cid) + store.messages[n..]
      && (forall c :: c != cid ==> ConversationMessages(store.messages, c) == ConversationMessages(old(store.messages), c))
      // the outcome
      && (generation.result.Success? ==> r == Success(ChatResponse(generation.result.value, cid)))
      && (generation.result.Failure? ==> r == Failure(LlmFailure(generation.result.error)))
  {
    history := [];
    var session := OpenConversation(store, sessionId, freshSessionId);
    if session.Failure? {
      return Failure(session.error), [];
    }
    ghost var joined, openedAt := store.conversations, store.clock;
    r, history := RecordExchange(
      store, session.value, text, config, provider, maxHistory, userMessageId, aiMessageId, APOLOGY);
    ghost var n := |old(store.messages)|;
    JoinedByTouch(old(store.conversations), joined, session.value, old(store.clock), openedAt, store.messages[n].timestamp, store.clock);
    ConversationMessagesAppendExchange(old(store.messages), store.messages, store.messages[n], store.messages[n + 1]);
  }

  /**
   * The handler of POST /message, after validation: the message is sanitised, and
   * one that sanitises to nothing is refused before the store is touched.
   */
  method PostMessage(
    store: Store, request: ChatRequest, config: GeneratorConfig,
    provider: seq<LLMMessage> -> ProviderOutcome, maxHistory: nat,
    freshSessionId: string, userMessageId: string, aiMessageId: string)
    returns (r: Result<ChatResponse, AppError>, ghost history: seq<Message>)
    requires store.Valid()
    requires freshSessionId !in store.conversations
    requires !IdTaken(store.messages, userMessageId) && !IdTaken(store.messages, aiMessageId)
    requires userMessageId != aiMessageId
    modifies store
    ensures store.Valid() && store.initialized == old(store.initialized)
    ensures Sanitize(request.message) == [] ==>
      r == Failure(ApiFailure(EmptyAfterSanitization)) && unchanged(store)
    ensures Sanitize(request.message) != [] && !old(store.initialized) ==>
      r == Failure(StoreFailure(NotInitialized)) && unchanged(store)
    ensures Sanitize(request.message) != [] && old(store.initialized) ==>
      var text := Sanitize(request.message);
      var cid := SessionFor(request.sessionId, freshSessionId);
      var n := |old(store.messages)|;
      var generation := GenerateReply(config, history, text, provider);
      && |store.messages| == n + 2
      && Joined(old(store.conversations), store.conversations, cid, old(store.clock), store.messages[n].timestamp, store.clock)
      && history == RecentMessages(old(store.messages), cid, maxHistory)
      && store.messages[..n] == old(store.messages)
      && store.messages[n] == Message(userMessageId, cid, User, text, store.messages[n].timestamp)
      && store.messages[n + 1] == Message(aiMessageId, cid, Ai, StoredReply(generation.result, APOLOGY), store.messages[n + 1].timestamp)
      && old(store.clock) < store.messages[n].timestamp < store.messages[n + 1].timestamp < store.clock
      && ConversationMessages(store.messages, cid) == ConversationMessages(old(store.messages), cid) + store.messages[n..]
      && (forall c :: c != cid ==> ConversationMessages(store.messages, c) == ConversationMessages(old(store.messages), c))
      && (generation.result.Success? ==> r == Success(ChatResponse(generation.result.value, cid)))
      && (generation.result.Failure? ==> r == Failure(LlmFailure(generation.result.error)))
  {
    var text := Sanitize(request.message);
    if text == [] {
      return Failure(ApiFailure(EmptyAfterSanitization)), [];
    }
    r, history := Converse(
      store, request.sessionId, text, config, provider, maxHistory, freshSessionId, userMessageId, aiMessageId);
  }

  /** What a route answers: its body, a validation failure, or the error handler's response. */
  datatype Reply<T> = Ok(body: T) | Rejected(failure: ValidationFailure) | Errored(response: ErrorResponse)

  /**
   * POST /message as a whole: the validation middleware, then the handler, then
   * the error handler for whatever the handler passes on.
   */
  method PostMessageRoute(
    store: Store, body: RequestBody, isUuid: string -> bool, config: GeneratorConfig,
    provider: seq<LLMMessage> -> ProviderOutcome, maxHistory: nat,
    freshSessionId: string, userMessageId: string, aiMessageId: string)
    returns (reply: Reply<ChatResponse>)
    requires store.Valid()
    requires freshSessionId !in store.conversations
    requires !IdTaken(store.messages, userMessageId) && !IdTaken(store.messages, aiMessageId)
    requires userMessageId != aiMessageId
    modifies store
    ensures store.Valid()
    ensures ValidateChatMessage(body, isUuid).Failure? ==>
      reply == Rejected(ValidateChatMessage(body, isUuid).error) && unchanged(store)
    ensures ValidateChatMessage(body, isUuid).Success? ==> !reply.Rejected?
    ensures reply.Ok? ==> reply.body.sessionId in store.conversations
  {
    var validated := ValidateChatMessage(body, isUuid);
    if validated.Failure? {
      return Rejected(validated.error);
    }
    var r, _ := PostMessage(store, validated.value, config, provider, maxHistory, freshSessionId, userMessageId, aiMessageId);
    match r {
      case Success(response) => reply := Ok(response);
      case Failure(e) => reply := Errored(HandleError(e));
    }
  }

  /** The handler of GET /history/:sessionId; it changes nothing. */
  method GetHistory(store: Store, sessionId: string) returns (r: Result<ConversationHistory, AppError>)
    requires store.Valid()
    ensures !IsValidSessionId(sessionId) ==> r == Failure(ApiFailure(InvalidSessionId))
    ensures IsValidSessionId(sessionId) && !store.initialized ==> r == Failure(StoreFailure(NotInitialized))
    ensures IsValidSessionId(sessionId) && store.initialized && sessionId !in store.conversations ==>
      r == Failure(ApiFailure(ConversationNotFound))
    ensures r.Success? <==> IsValidSessionId(sessionId) && store.initialized && sessionId in store.conversations
    ensures r.Success? ==>
      && r.value.sessionId == sessionId
      && Ascending(r.value.messages)
      && (forall m :: m in r.value.messages <==> m in store.messages && m.conversationId == sessionId)
  {
    if !IsValidSessionId(sessionId) {
      return Failure(ApiFailure(InvalidSessionId));
    }
    var conversation := store.GetConversation(sessionId);
    if conversation.Failure? {
      return Failure(StoreFailure(conversation.error));
    }
    if conversation.value.None? {
      return Failure(ApiFailure(ConversationNotFound));
    }
    var messages := store.GetMessagesByConversation(sessionId).value;
    r := Success(ConversationHistory(sessionId, messages));
  }

  /** The handler of POST /new: a conversation with no messages yet. */
  method NewConversation(store: Store, freshSessionId: string) returns (r: Result<NewConversationResponse, AppError>)
    requires store.Valid()
    requires freshSessionId !in store.conversations
    modifies store
    ensures store.Valid() && store.initialized == old(store.initialized)
    ensures !old(store.initialized) ==> r == Failure(StoreFailure(NotInitialized)) && unchanged(store)
    ensures old(store.initialized) ==>
      && r == Success(NewConversationResponse(freshSessionId, "New conversation started"))
      && store.conversations == old(store.conversations)[freshSessionId := Conversation(freshSessionId, store.clock, store.clock, None)]
      && store.messages == old(store.messages)
      && old(store.clock) < store.clock
  {
    var created := store.CreateConversation(freshSessionId);
    if created.Failure? {
      return Failure(StoreFailure(created.error));
    }
    r := Success(NewConversationResponse(freshSessionId, "New conversation started"));
  }

  /** A provider that answers 429 reaches the client as a 429 RATE_LIMIT from the AI service. */
  lemma {:induction false} RateLimitedProviderResponse(
    config: GeneratorConfig, history: seq<Message>, text: string,
    provider: seq<LLMMessage> -> ProviderOutcome, message: string)
    requires HasApiKey(config)
    requires provider(PromptMessages(config.systemPrompt, history, text)) == Threw(ApiStatusError(Some(429), message))
    ensures var g := GenerateReply(config, history, text, provider);
      && g.result.Failure?
      && HandleError(LlmFailure(g.result.error)) ==
           ErrorResponse(429, "AI Service Error", RateLimitError.code.Message(), "RATE_LIMIT")
      && StoredReply(g.result, APOLOGY) == APOLOGY
  {
    ApiStatusMapping(config, history, text, provider, Some(429), message);
  }

  /** Every failed generation reaches the client with the status its code calls for. */
  lemma {:induction false} GenerationFailureResponse(
    config: GeneratorConfig, history: seq<Message>, text: string, provider: seq<LLMMessage> -> ProviderOutcome)
    requires GenerateReply(config, history, text, provider).result.Failure?
    ensures var e := GenerateReply(config, history, text, provider).result.error;
      var response := HandleError(LlmFailure(e));
      && response.error == "AI Service Error"
      && response.code == e.code.Name()
      && response.statusCode == e.statusCode
      && StatusFitsCode(e)
  {
  }
}
