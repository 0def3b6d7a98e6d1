/**
 * The records the backend passes around (backend/src/types/index.ts), plus the
 * Option and Result wrappers the model uses for nullable returns and thrown errors.
 */
module Types {

  datatype Option<+T> = None | Some(value: T)

  /** Either a value, or the error a TypeScript function would have thrown. */
  datatype Result<+T, +E> = Success(value: T) | Failure(error: E)

  /**
   * Timestamps are clock readings. The source stores ISO-8601 strings, whose
   * lexicographic order is their chronological order; the model keeps only that order.
   */
  type Timestamp = nat

  /** The two authors a stored message can have (CHECK (sender IN ('user', 'ai'))). */
  datatype Sender = User | Ai

  datatype Conversation = Conversation(
    id: string,
    createdAt: Timestamp,
    updatedAt: Timestamp,
    metadata: Option<string>)

  datatype Message = Message(
    id: string,
    conversationId: string,
    sender: Sender,
    text: string,
    timestamp: Timestamp)

  datatype ChatRequest = ChatRequest(message: string, sessionId: Option<string>)

  datatype ChatResponse = ChatResponse(reply: string, sessionId: string)

  datatype ConversationHistory = ConversationHistory(sessionId: string, messages: seq<Message>)

  /** The roles of the chat-completion wire format; `SystemRole` is never stored. */
  datatype Role = SystemRole | UserRole | AssistantRole

  datatype LLMMessage = LLMMessage(role: Role, content: string)
}
