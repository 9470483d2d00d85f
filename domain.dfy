/**
 * The records the chat turn reads and writes: the session and message rows
 * (domain/entity) and the two transport DTOs (domain/dto). Times
 * (LocalDateTime) are plain integers.
 */
module Domain {
  import opened JavaLang

  /** A row of the session table. `deleted` is the logical-delete flag: 0 no, 1 yes (a nullable Integer). */
  datatype Session = Session(
    sessionId: int,
    title: string,
    creationTime: int,
    updateTime: int,
    deleted: Option<int>)

  /** Message.role: "system", "user" or "assistant". */
  datatype Role = System | User | Assistant

  /** A row of the message table. */
  datatype Message = Message(
    id: int,
    sessionId: int,
    role: Role,
    content: string,
    deleted: Option<int>)

  /** The inbound request of both transports: a nullable session id and nullable text. */
  datatype ChatMessageDto = ChatMessageDto(sessionId: Option<int>, content: Option<string>)

  /** The outbound WebSocket frame; every field is a nullable reference. */
  datatype ChatResponseDto = ChatResponseDto(
    content: Option<string>,
    done: Option<bool>,
    errorMessage: Option<string>)
}
