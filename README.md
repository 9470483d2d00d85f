# Streaming chat turn: service and transports

A Dafny model of the core of a Spring Boot chat back end. One chat turn goes
like this. A client sends a session id (or none) and a text. The service
runs the turn:

- `ChatServiceImpl.chatStream` drops null or blank text.
- It creates a session titled from the text (`generateTitleFromMessage`), or it refreshes the existing session. An unknown or logically deleted session throws `IllegalArgumentException`.
- It saves the user message.
- It forwards the model's streamed deltas to a chunk callback.
- When the stream ends, it saves the concatenated reply, refreshes the session and calls the done callback.
- Failures once the stream is running (a chunk callback that throws, a stream error, a failing store call or done callback in the completion handler) go to the error callback. The unknown-session exception goes to the caller.

Two transports turn the callbacks into network frames:

- **Server-sent events (ChatController):**
  - The callbacks become OpenAI-style `chat.completion.chunk` JSON, the `[DONE]` sentinel, or an error object, sent on an `SseEmitter`.
  - The text goes through a hand-written `escapeJson`.
- **WebSocket (AiWebSocketHandler):** the callbacks become `ChatResponseDTO` frames, and nothing is sent once the connection has closed.

## How the model is organised

- **Modules, one per source file:**
  - **`JavaLang`:** the `java.lang` behaviour the code relies on: null as `Option`, `String.isBlank` with `Character.isWhitespace`, `String.trim`, `Long.toString`, and `long / 1000`.
  - **`Domain`:** the session and message rows and the two DTOs.
  - **`ChatServiceImpl`:** the service.
  - **`ChatController` and `AiWebSocketHandler`:** the two transports.
- **The service is specified by a pure function.**
  - `RunTurn` runs over a `Snapshot`: the session table with its next auto-increment id, the message table with its next id, and the log of callbacks fired.
  - The class `ChatService` holds the same state in fields.
  - Its method `ChatStream` performs the turn step by step, as the Java code does. It is proved to reach `RunTurn`'s result.
- **Inputs that stand in for what the service doesn't control:**
  - The model's reply: the deltas, in arrival order, and how the stream ends (`Outcome`).
  - The two clock readings.
  - `Faults`: exceptions from the callbacks and from the store calls of the completion handler.
- **Transports replay the fired callbacks.**
  - The stores and the transport objects are disjoint. Each transport therefore runs the turn, then passes the fired callbacks, in order, through its own callback code.
  - The Java code interleaves the two. The replay yields the same transport operations in the same order.
  - The turn a transport starts has callbacks that never throw (`TransportTurn`). For the WebSocket handler this is the code: its send helpers catch every `Exception`. The SSE helpers catch only `IOException`; the other exceptions they can throw are left out (see ChatController.Chat under "## Left out").
- **The SSE emitter** is a class that logs the operations called on it (`send`, `complete`, `completeWithError`).
  - A send is logged as a structured `Frame`. `Data` gives the frame's exact text.
  - The client receives the frames sent before the first completion (`Delivered`). `Completion` says how the response ended.
  - Which sends throw `IOException` is an input.
- **The WebSocket connection** is a class with its is-open flag and the list of frames that went out.
  - Two inputs come from the peer and the network: when the peer closes (`closeAt`, the first send attempt by which it has closed) and which writes throw (`sendFails`).

## Model

| member | source | states |
|---|---|---|
| JavaLang.Trim | src/main/java/com/mifazhan/service/impl/ChatServiceImpl.java:142 | the trimmed string is no longer than the input and starts and ends with a char above U+0020 (or is empty) |
| JavaLang.TrimRemovesOnlySpaces | src/main/java/com/mifazhan/service/impl/ChatServiceImpl.java:142 | trim returns a slice of the input; every char it removed at either end is <= U+0020 |
| JavaLang.TrimKeepsTrimmed | src/main/java/com/mifazhan/service/impl/ChatServiceImpl.java:142 | a string that starts and ends with chars above U+0020 is unchanged by trim |
| JavaLang.TrimIdempotent | src/main/java/com/mifazhan/service/impl/ChatServiceImpl.java:142 | trimming twice is trimming once |
| JavaLang.IsWhitespace | src/main/java/com/mifazhan/service/impl/ChatServiceImpl.java:47 | Character.isWhitespace: the Unicode space, line and paragraph separators other than the no-break spaces U+00A0, U+2007 and U+202F, plus U+0009..U+000D and U+001C..U+001F |
| JavaLang.IsBlank | src/main/java/com/mifazhan/service/impl/ChatServiceImpl.java:47 | String.isBlank: every char is whitespace, so the empty string is blank |
| JavaLang.LongToString | src/main/java/com/mifazhan/controller/ChatController.java:72-74 | %d of a long: a minus sign exactly for negatives, followed by decimal digits |
| JavaLang.LongToStringRoundTrip | src/main/java/com/mifazhan/controller/ChatController.java:72-74 | the digits read back give the number's magnitude, so %d loses nothing |
| JavaLang.NatToStringRoundTrip | src/main/java/com/mifazhan/service/impl/ChatServiceImpl.java:67 | reading back the decimal digits of n gives n |
| JavaLang.EpochSeconds | src/main/java/com/mifazhan/controller/ChatController.java:70 | millis / 1000 truncates toward zero: the quotient brackets millis within one second on each sign |
| ChatServiceImpl.GenerateTitle | src/main/java/com/mifazhan/service/impl/ChatServiceImpl.java:140-147 | a title is at most 30 + 3 chars long |
| ChatServiceImpl.TitleShape | src/main/java/com/mifazhan/service/impl/ChatServiceImpl.java:141-146 | a trimmed text of up to 30 chars is the title; a longer one gives its first 30 chars followed by "..." |
| ChatServiceImpl.TitleIdempotent | src/main/java/com/mifazhan/service/impl/ChatServiceImpl.java:140-147 | titling a title gives the same title |
| ChatServiceImpl.BlankAndTrimDisagree | src/main/java/com/mifazhan/service/impl/ChatServiceImpl.java:47-61 | isBlank and trim use different whitespace sets: U+3000 is blank yet survives trim, U+0001 is not blank yet trims to an empty title |
| ChatServiceImpl.NotFoundMessage | src/main/java/com/mifazhan/service/impl/ChatServiceImpl.java:67 | the IllegalArgumentException message: "会话不存在或已删除，sessionId=" followed by the id as Long.toString writes it |
| ChatServiceImpl.Opened | src/main/java/com/mifazhan/service/impl/ChatServiceImpl.java:54-71 | session resolution: a new session under the next id, titled from the text, created and updated now with deleted 0; or the fetched session with updateTime now |
| ChatServiceImpl.ForwardOne | src/main/java/com/mifazhan/service/impl/ChatServiceImpl.java:90-101 | onNext for one delta: the chunk callback, then a "处理消息片段异常: " error when forwarding it throws |
| ChatServiceImpl.ForwardEvents | src/main/java/com/mifazhan/service/impl/ChatServiceImpl.java:90-101 | onNext over every delta, in arrival order |
| ChatServiceImpl.Finish | src/main/java/com/mifazhan/service/impl/ChatServiceImpl.java:109-135 | the completion handler: save the reply, refresh the row when it is found, fire done; the first store call that throws (or a throwing done callback) fires one "保存消息或完成回调异常: " error |
| ChatServiceImpl.Streamed | src/main/java/com/mifazhan/service/impl/ChatServiceImpl.java:85-137 | the subscription: the forwarded deltas, then onError's "AI 服务异常: " error or the completion handler |
| ChatServiceImpl.RunTurn | src/main/java/com/mifazhan/service/impl/ChatServiceImpl.java:46-138 | one call of chatStream; its contract: only the session check throws, with the not-found message, and then nothing is written |
| ChatServiceImpl.ForwardedChunksAreDeltas | src/main/java/com/mifazhan/service/impl/ChatServiceImpl.java:90-101 | every delta is passed to the chunk callback, in arrival order, even when forwarding one throws |
| ChatServiceImpl.ForwardingIsNotTerminal | src/main/java/com/mifazhan/service/impl/ChatServiceImpl.java:90-101 | forwarding never fires done; with no forwarding fault it fires exactly one chunk per delta |
| ChatServiceImpl.AccumulationMatchesChunks | src/main/java/com/mifazhan/service/impl/ChatServiceImpl.java:83-116 | the accumulated reply is the concatenation of the chunks forwarded |
| ChatServiceImpl.TerminalEventsHaveNoChunk | src/main/java/com/mifazhan/service/impl/ChatServiceImpl.java:103-136 | the error and completion handlers fire no chunk |
| ChatServiceImpl.StreamChunksAreDeltas | src/main/java/com/mifazhan/service/impl/ChatServiceImpl.java:85-137 | the chunks among the callbacks of the whole stream are exactly the deltas |
| ChatServiceImpl.FinishEffect | src/main/java/com/mifazhan/service/impl/ChatServiceImpl.java:109-135 | the completion handler saves the reply unless that save throws, refreshes the session only when no store call throws, and fires done, or one error prefixed "保存消息或完成回调异常: " |
| ChatServiceImpl.StreamedEffect | src/main/java/com/mifazhan/service/impl/ChatServiceImpl.java:85-137 | the stream phase: forwarded chunks, then onError's single "AI 服务异常: " error or the completion handler's writes and callbacks |
| ChatServiceImpl.TurnEffect | src/main/java/com/mifazhan/service/impl/ChatServiceImpl.java:52-137 | a resolved turn returns normally; it states field by field the sessions, message rows, ids and callbacks it leaves |
| ChatServiceImpl.BlankInputIsIgnored | src/main/java/com/mifazhan/service/impl/ChatServiceImpl.java:47-50 | null or blank text returns at once: no store write, no callback |
| ChatServiceImpl.UnknownSessionThrows | src/main/java/com/mifazhan/service/impl/ChatServiceImpl.java:65-68 | an absent session, or one whose deleted flag is 1, throws "会话不存在或已删除，sessionId=<id>" before anything is written |
| ChatServiceImpl.TurnFiresEvents | src/main/java/com/mifazhan/service/impl/ChatServiceImpl.java:85-137 | a resolved turn fires the forwarded chunks then the terminal callbacks; the chunks fired are the deltas |
| ChatServiceImpl.NewSessionCreated | src/main/java/com/mifazhan/service/impl/ChatServiceImpl.java:56-124 | with no id exactly one session is added, under the next id, titled from the text, created at the start time, updated at the finish time if the turn completes cleanly; every other session is unchanged |
| ChatServiceImpl.ExistingSessionRefreshed | src/main/java/com/mifazhan/service/impl/ChatServiceImpl.java:64-124 | a live id creates nothing; only that session's updateTime changes, to the start time or, on a clean completion, the finish time |
| ChatServiceImpl.MessagesSaved | src/main/java/com/mifazhan/service/impl/ChatServiceImpl.java:74-118 | the untrimmed user message is appended first; the reply, when saved, follows it in the same session and holds the concatenation of the chunks fired; earlier rows are untouched |
| ChatServiceImpl.BackendFailureSavesNoReply | src/main/java/com/mifazhan/service/impl/ChatServiceImpl.java:103-108 | on a stream error only the user message is saved, a single "AI 服务异常: " error ends the callbacks and done never fires |
| ChatServiceImpl.CleanTurnHasOneTerminal | src/main/java/com/mifazhan/service/impl/ChatServiceImpl.java:85-137 | with nothing throwing, the callbacks are one chunk per delta and then one done |
| ChatServiceImpl.ErrorThenDoneIsPossible | src/main/java/com/mifazhan/service/impl/ChatServiceImpl.java:96-128 | a throwing forward fires an error and the turn still ends in done: the callbacks do not always have a single terminal |
| ChatServiceImpl.RunTurnPreservesValid | src/main/java/com/mifazhan/service/impl/ChatServiceImpl.java:46-138 | a turn keeps every id below its counter, every session filed under its own id and every message owned by a stored session |
| ChatServiceImpl.TimesStayOrdered | src/main/java/com/mifazhan/service/impl/ChatServiceImpl.java:52-122 | if the clock does not run backwards, every session keeps creationTime <= updateTime |
| ChatServiceImpl.EventsOnlyGrow | src/main/java/com/mifazhan/service/impl/ChatServiceImpl.java:46-138 | a turn only appends to the callbacks fired |
| ChatServiceImpl.Fired | src/main/java/com/mifazhan/service/impl/ChatServiceImpl.java:46-138 | the callbacks one turn fires: the log after the turn is the log before it followed by these |
| ChatServiceImpl.ChatService.constructor | src/main/java/com/mifazhan/service/impl/ChatServiceImpl.java:27-34 | empty stores whose auto-increment ids start at 1, satisfying the store invariant |
| ChatServiceImpl.ChatService.SaveMessage | src/main/java/com/mifazhan/service/impl/ChatServiceImpl.java:75-80 | appends one row with the next id and the not-deleted flag 0 |
| ChatServiceImpl.ChatService.OnNext | src/main/java/com/mifazhan/service/impl/ChatServiceImpl.java:90-101 | appends the delta to the reply, fires it, and fires a "处理消息片段异常: " error when forwarding it throws |
| ChatServiceImpl.ChatService.OnError | src/main/java/com/mifazhan/service/impl/ChatServiceImpl.java:103-108 | fires one "AI 服务异常: " error with the stream error's message |
| ChatServiceImpl.ChatService.OnComplete | src/main/java/com/mifazhan/service/impl/ChatServiceImpl.java:109-135 | the new state is the completion handler's Finish of the old one |
| ChatServiceImpl.ChatService.Subscribe | src/main/java/com/mifazhan/service/impl/ChatServiceImpl.java:83-137 | the delta loop and the terminal signal take the state to the stream phase's Streamed of it |
| ChatServiceImpl.ChatService.ChatStream | src/main/java/com/mifazhan/service/impl/ChatServiceImpl.java:46-138 | keeps the store invariant, and its final state and return-or-throw are exactly RunTurn's |
| ChatController.ReplaceChar | src/main/java/com/mifazhan/controller/ChatController.java:101-105 | String.replace of a char leaves a string without that char unchanged |
| ChatController.ReplaceCharAppend | src/main/java/com/mifazhan/controller/ChatController.java:101-105 | replacing a char distributes over concatenation |
| ChatController.EscapeChain | src/main/java/com/mifazhan/controller/ChatController.java:101-105 | the five replace calls in the order written, backslash first |
| ChatController.EscapeChainOfChar | src/main/java/com/mifazhan/controller/ChatController.java:101-105 | on a single char the five replaces give its two-char escape or the char itself: no escape is escaped again |
| ChatController.EscapeChainIsEscapeEach | src/main/java/com/mifazhan/controller/ChatController.java:101-105 | the replace chain, backslash first, equals escaping each char independently |
| ChatController.EscapeJson | src/main/java/com/mifazhan/controller/ChatController.java:97-106 | null gives the empty string; otherwise each backslash, quote, newline, return and tab becomes its two-char escape, every other char is kept |
| ChatController.EscapeChar | src/main/java/com/mifazhan/controller/ChatController.java:101-105 | an escaped char becomes a backslash and one more char; any other char is kept as is |
| ChatController.EscapedLength | src/main/java/com/mifazhan/controller/ChatController.java:97-106 | the escaped text is longer than the input by exactly the number of escaped chars |
| ChatController.UnescapeEscapeJson | src/main/java/com/mifazhan/controller/ChatController.java:97-106 | decoding the five escapes recovers the input: escapeJson loses nothing |
| ChatController.ReadEscapedString | src/main/java/com/mifazhan/controller/ChatController.java:97-106 | an RFC 8259 string reader reads the escaped text back up to the closing quote exactly when the input has no raw control char other than newline, return and tab |
| ChatController.ChunkFrameCarriesContent | src/main/java/com/mifazhan/controller/ChatController.java:70-78 | a JSON reader placed after the fixed head of a chunk frame reads exactly the chunk as delta.content, then the fixed tail; with a raw control char the frame is not JSON |
| ChatController.ErrorFrameCarriesMessage | src/main/java/com/mifazhan/controller/ChatController.java:88 | the same for error.message in an error frame |
| ChatController.ChunkCreatedIsSeconds | src/main/java/com/mifazhan/controller/ChatController.java:70-74 | the created field holds the first clock reading in whole seconds |
| ChatController.ChunkJson | src/main/java/com/mifazhan/controller/ChatController.java:70-78 | the chunk format string: id "chatcmpl-" and the second millisecond reading, object "chat.completion.chunk", created the first reading in seconds, model "glm-4.5-flash", index 0, delta.content escapeJson(chunk), finish_reason null |
| ChatController.ErrorJson | src/main/java/com/mifazhan/controller/ChatController.java:88 | the error format string: error.message escapeJson(message), type "invalid_request_error" |
| ChatController.Data | src/main/java/com/mifazhan/controller/ChatController.java:67-88 | the data of each frame: the chunk format, the literal [DONE], or the error format |
| ChatController.OnlyDoneIsSentinel | src/main/java/com/mifazhan/controller/ChatController.java:67-88 | only the done frame's data is [DONE]; every chunk and error frame starts with '{' and ends with '}', so a client never mistakes it for the sentinel (it is valid JSON only without raw control chars, per ChunkFrameCarriesContent) |
| ChatController.Completion | src/main/java/com/mifazhan/controller/ChatController.java:48-93 | how the response ends is a complete or completeWithError call, never a send |
| ChatController.SseEmitter.constructor | src/main/java/com/mifazhan/controller/ChatController.java:38 | a new emitter has had nothing called on it |
| ChatController.SseEmitter.Send | src/main/java/com/mifazhan/controller/ChatController.java:68-89 | a send is logged unless it throws IOException, and reports which |
| ChatController.SseEmitter.Complete | src/main/java/com/mifazhan/controller/ChatController.java:48-90 | logs one complete |
| ChatController.SseEmitter.CompleteWithError | src/main/java/com/mifazhan/controller/ChatController.java:58-93 | logs one completeWithError |
| ChatController.ChunkFrames | src/main/java/com/mifazhan/controller/ChatController.java:69-78 | one chunk frame per delta, the i-th carrying delta i |
| ChatController.CallbackOps | src/main/java/com/mifazhan/controller/ChatController.java:45-53 | the emitter operations of each callback: sendChunk, sendChunk of the sentinel then complete, or sendError then complete |
| ChatController.ChatOps | src/main/java/com/mifazhan/controller/ChatController.java:40-59 | the emitter operations of the handler: the callbacks in order, then on a throw the catch block's "系统异常: " error and completeWithError |
| ChatController.SendChunk | src/main/java/com/mifazhan/controller/ChatController.java:65-84 | sends [DONE] when done, a chunk frame otherwise; a throwing send gives completeWithError instead |
| ChatController.SendError | src/main/java/com/mifazhan/controller/ChatController.java:86-95 | sends an error frame and completes; a throwing send gives completeWithError instead |
| ChatController.OnEvent | src/main/java/com/mifazhan/controller/ChatController.java:45-53 | chunk: sendChunk; done: sendChunk of the sentinel then complete; error: sendError then complete |
| ChatController.Chat | src/main/java/com/mifazhan/controller/ChatController.java:36-63 | runs the turn on the service, then the callbacks of what it fired, and on a throw the "系统异常: " error frame and completeWithError |
| ChatController.DoneSendsSentinel | src/main/java/com/mifazhan/controller/ChatController.java:46-68 | the done callback delivers exactly [DONE] and completes normally |
| ChatController.ErrorSendsErrorFrame | src/main/java/com/mifazhan/controller/ChatController.java:50-90 | the error callback delivers exactly the error frame and completes normally |
| ChatController.IoFailureCompletesWithError | src/main/java/com/mifazhan/controller/ChatController.java:80-94 | a send that throws delivers nothing and completes the emitter with error, whatever the callback |
| ChatController.CallbackSendsAtMostOnce | src/main/java/com/mifazhan/controller/ChatController.java:45-53 | each callback delivers at most one frame, and its send comes before its completions |
| ChatController.DeliveredAppend | src/main/java/com/mifazhan/controller/ChatController.java:38-60 | after sends only, the delivered frames and the completion are those of what follows |
| ChatController.DeliveredSentAll | src/main/java/com/mifazhan/controller/ChatController.java:38-60 | a run of sends delivers exactly its frames |
| ChatController.ReplayChunks | src/main/java/com/mifazhan/controller/ChatController.java:45-78 | with no failing send, the chunk callbacks send one chunk frame per delta, in order |
| ChatController.ReplayLast | src/main/java/com/mifazhan/controller/ChatController.java:42-54 | the callbacks of one more event append that callback's operations |
| ChatController.BlankInputLeavesEmitterOpen | src/main/java/com/mifazhan/controller/ChatController.java:40-60 | null or blank text sends nothing and never completes the emitter |
| ChatController.UnknownSessionSendsOneError | src/main/java/com/mifazhan/controller/ChatController.java:55-58 | an unknown or deleted session sends one "系统异常: " frame with the not-found message, completes, then completes with error |
| ChatController.CleanChatDeliversChunksThenDone | src/main/java/com/mifazhan/controller/ChatController.java:36-63 | a turn where nothing fails delivers one chunk frame per delta, then [DONE], and completes normally |
| ChatController.FailedStreamDeliversChunksThenError | src/main/java/com/mifazhan/controller/ChatController.java:36-63 | a failing stream delivers its chunk frames, then one "AI 服务异常: " error frame, and completes normally |
| AiWebSocketHandler.CallbackResponseShape | src/main/java/com/mifazhan/websocket/AiWebSocketHandler.java:40-79 | chunk: {content: chunk, done: false}; done: {content: "", done: true}; error: {done: true, errorMessage}; unset fields are null |
| AiWebSocketHandler.CallbackResponseInjective | src/main/java/com/mifazhan/websocket/AiWebSocketHandler.java:40-79 | different callbacks give different frames: the client can tell which callback fired |
| AiWebSocketHandler.ChunkResponse | src/main/java/com/mifazhan/websocket/AiWebSocketHandler.java:55-62 | the frame sendChunk builds: content and done set, errorMessage null |
| AiWebSocketHandler.ErrorResponse | src/main/java/com/mifazhan/websocket/AiWebSocketHandler.java:72-79 | the frame sendError builds: done true and errorMessage set, content null |
| AiWebSocketHandler.CallbackResponse | src/main/java/com/mifazhan/websocket/AiWebSocketHandler.java:40-42 | the frame each callback asks for: {chunk, false}, {"", true}, or the error frame |
| AiWebSocketHandler.CatchFrames | src/main/java/com/mifazhan/websocket/AiWebSocketHandler.java:44-46 | the catch block's frame: none on a normal return, one "系统异常: " error frame on a throw |
| AiWebSocketHandler.Attempts | src/main/java/com/mifazhan/websocket/AiWebSocketHandler.java:32-48 | the frames the handler asks to send, in order: the fired callbacks' frames, then the catch block's; an unparsable payload gives only the catch block's |
| AiWebSocketHandler.WsConnection.constructor | src/main/java/com/mifazhan/websocket/AiWebSocketHandler.java:32 | a connection, open or not, with nothing sent |
| AiWebSocketHandler.WsConnection.SendMessage | src/main/java/com/mifazhan/websocket/AiWebSocketHandler.java:64-83 | the frame goes out exactly when the connection is open and the write does not throw |
| AiWebSocketHandler.WsConnection.Close | src/main/java/com/mifazhan/websocket/AiWebSocketHandler.java:56-73 | marks the connection not open and sends nothing |
| AiWebSocketHandler.SendChunk | src/main/java/com/mifazhan/websocket/AiWebSocketHandler.java:55-70 | nothing on a closed connection; otherwise one {content, done} frame unless the write throws, which is swallowed |
| AiWebSocketHandler.SendError | src/main/java/com/mifazhan/websocket/AiWebSocketHandler.java:72-87 | nothing on a closed connection; otherwise one {done: true, errorMessage} frame unless the write throws, which is swallowed |
| AiWebSocketHandler.OnEvent | src/main/java/com/mifazhan/websocket/AiWebSocketHandler.java:40-42 | each callback sends at most its own frame and never changes the open flag |
| AiWebSocketHandler.Responses | src/main/java/com/mifazhan/websocket/AiWebSocketHandler.java:40-42 | one frame per callback, the i-th being callback i's frame |
| AiWebSocketHandler.DeliveredSnoc | src/main/java/com/mifazhan/websocket/AiWebSocketHandler.java:55-87 | one more send attempt adds at most its own frame |
| AiWebSocketHandler.CallbackAttempt | src/main/java/com/mifazhan/websocket/AiWebSocketHandler.java:40-42 | one callback as send attempt k: the connection is open after it iff it was and the peer did not close now, and it puts out at most its own frame |
| AiWebSocketHandler.ReplayCallbacks | src/main/java/com/mifazhan/websocket/AiWebSocketHandler.java:40-42 | the fired callbacks, k-th as send attempt k, put out exactly Delivered of their frames, and the connection is open after them iff it was and the peer has not closed |
| AiWebSocketHandler.SendFailure | src/main/java/com/mifazhan/websocket/AiWebSocketHandler.java:44-46 | the catch block sends at most one "系统异常: " error frame |
| AiWebSocketHandler.HandleParsed | src/main/java/com/mifazhan/websocket/AiWebSocketHandler.java:37-46 | runs the turn on the service, then the callbacks of what it fired, and on a throw the catch block |
| AiWebSocketHandler.HandleTextMessage | src/main/java/com/mifazhan/websocket/AiWebSocketHandler.java:32-48 | an unparsable payload leaves the stores untouched; a parsed one runs RunTurn; the frames out are Delivered of Attempts on that connection |
| AiWebSocketHandler.ClosedConnectionGetsNothing | src/main/java/com/mifazhan/websocket/AiWebSocketHandler.java:56-75 | a connection that is not open gets no frame at all |
| AiWebSocketHandler.GoesOut | src/main/java/com/mifazhan/websocket/AiWebSocketHandler.java:56-69 | an attempt goes out exactly when the connection is open, the peer has not closed and the write does not throw |
| AiWebSocketHandler.KeptIndexes | src/main/java/com/mifazhan/websocket/AiWebSocketHandler.java:55-87 | the indexes of the attempts below n that go out, each below n |
| AiWebSocketHandler.KeptIndexesExact | src/main/java/com/mifazhan/websocket/AiWebSocketHandler.java:55-87 | those indexes are strictly increasing, and an index is listed iff its attempt goes out |
| AiWebSocketHandler.DeliveredIsSubsequence | src/main/java/com/mifazhan/websocket/AiWebSocketHandler.java:59-86 | the frames out are exactly the attempted frames at the indexes KeptIndexes lists, in order: each attempt puts out its own frame once or not at all, with no retry |
| AiWebSocketHandler.FaultFreeDeliversAll | src/main/java/com/mifazhan/websocket/AiWebSocketHandler.java:55-87 | on an open connection with no close and no failing write, every attempted frame goes out, in order |
| AiWebSocketHandler.NothingAfterClose | src/main/java/com/mifazhan/websocket/AiWebSocketHandler.java:56-75 | once the peer has closed, no later attempt puts out anything |
| AiWebSocketHandler.ChunkResponses | src/main/java/com/mifazhan/websocket/AiWebSocketHandler.java:40-62 | the frames of a stream's chunk callbacks: {delta, false}, one per delta |
| AiWebSocketHandler.ParseFailureSendsOneError | src/main/java/com/mifazhan/websocket/AiWebSocketHandler.java:35-46 | a payload that does not parse attempts exactly one {done: true, errorMessage: "系统异常: " + message} frame |
| AiWebSocketHandler.BlankInputSendsNothing | src/main/java/com/mifazhan/websocket/AiWebSocketHandler.java:37-43 | null or blank text attempts no frame |
| AiWebSocketHandler.UnknownSessionSendsOneError | src/main/java/com/mifazhan/websocket/AiWebSocketHandler.java:44-46 | an unknown or deleted session attempts exactly one "系统异常: " frame with the not-found message |
| AiWebSocketHandler.CleanTurnFrames | src/main/java/com/mifazhan/websocket/AiWebSocketHandler.java:37-43 | a clean turn attempts one {delta, false} frame per delta, then a single {"", true} frame |
| AiWebSocketHandler.FailedStreamFrames | src/main/java/com/mifazhan/websocket/AiWebSocketHandler.java:37-43 | a failing stream attempts its chunk frames, then one "AI 服务异常: " error frame, and no done frame |

## Left out

- Threading: the cached thread pool of ChatController, `synchronized (wsSession)`, and Reactor's asynchronous `subscribe`. The stream is a sequential list of signals, delivered in order on one thread.
- The model client (`ChatClient`) is not part of this model. Its reply is an input: the deltas, then completion or an error with its message.
- Reactor cancelling the subscription when a signal handler itself throws. The onError handler's call of the error callback, and the calls of the error callback inside the catch blocks of the onNext and onComplete handlers, are not guarded. With the WebSocket callbacks they cannot throw; with the SSE callbacks a non-IO exception could (see the ChatController.Chat lines below).
- Store calls before the stream that throw, i.e. `sessionService.save`, `getById`, `updateById` and `messageService.save` at the top of chatStream. Only the store calls of the completion handler are given as faults. The MyBatis mapper, auto-fill handlers and the logical-delete filter are not part of this model; the session table is a map and logical deletion is the `deleted` flag.
- The null checks of the three callbacks in chatStream. Both transports always pass non-null callbacks.
- Exception messages that are null (`"系统异常: " + null` gives "系统异常: null"). Every message is a string.
- Strings are sequences of Unicode scalar values, one char each. Supplementary characters, which Java stores as two UTF-16 units, are not modelled, so `substring(0, 30)` splitting a surrogate pair cannot be expressed.
- ChatServiceImpl.GenerateTitle: the 30-char limit counts Unicode scalar values, not UTF-16 units. A text of 30 emoji is its own title in the model; Java sees 60 units and keeps 15 emoji followed by "...".
- Jackson: the JSON text of a `ChatResponseDTO` frame and the parsing of the inbound payload. A WebSocket frame is the DTO value; a payload is already parsed or already failed.
- SSE wire framing: the `data:` lines and blank-line separators Spring writes around each event. A frame's data is `Data(frame)`.
- ChatController.Chat: sends after the emitter has completed are logged like any other operation but not delivered. Spring refuses them with IllegalStateException.
- ChatController.Chat: exceptions other than IOException are not modelled. sendChunk and sendError catch only IOException, and `emitter.complete()` in the done and error callbacks is outside any try, so an IllegalStateException (or any other runtime exception) from the emitter escapes the SSE callback. In the real code it then reaches chatStream's catch blocks, which fire extra error callbacks ("处理消息片段异常: ", "保存消息或完成回调异常: "). One escaping the error callback itself reaches Reactor, which may cancel the stream, so that no reply is saved. The SSE turn here has callbacks that never throw, so it shows neither the extra callbacks nor the cancelled stream.
- ChatController.ReadEscapedString: the reader decodes the RFC 8259 escapes except `\uXXXX`, which escapeJson never produces.
- Logging (`log.info`, `log.warn`, `log.error`) and the connection lifecycle callbacks `afterConnectionEstablished` / `afterConnectionClosed`, which only log.
