/**
 * AiWebSocketHandler: the WebSocket transport of a chat turn.
 *
 * Each callback of chatStream becomes one ChatResponseDTO frame, sent only
 * while the connection is open; a send that throws is logged and dropped. A
 * payload that does not parse, or an exception out of chatStream, becomes one
 * "系统异常: " error frame. The connection is a class with its is-open flag
 * and the log of the frames that went out; a frame is the DTO itself, before
 * Jackson turns it into text.
 *
 * Two things the peer and the network decide are inputs: `closeAt`, the
 * index of the first send attempt by which the peer has closed the
 * connection (nothing closes when it is past the last attempt), and
 * `sendFails`, the indexes of the attempts whose sendMessage throws.
 */
module AiWebSocketHandler {
  import opened JavaLang
  import opened Domain
  import opened ChatServiceImpl

  const SystemFailurePrefix := "系统异常: "

  // ---------------------------------------------------------------------
  // Frames
  // ---------------------------------------------------------------------

  /** The frame sendChunk builds: content and done set, errorMessage left null. */
  function ChunkResponse(content: string, done: bool): ChatResponseDto
  {
    ChatResponseDto(Some(content), Some(done), None)
  }

  /** The frame sendError builds: done true and errorMessage set, content left null. */
  function ErrorResponse(message: string): ChatResponseDto
  {
    ChatResponseDto(None, Some(true), Some(message))
  }

  /** The frame the callback of an event asks to send. */
  function CallbackResponse(e: Event): ChatResponseDto
  {
    match e
    case Chunk(text) => ChunkResponse(text, false)
    case Done => ChunkResponse("", true)
    case Error(message) => ErrorResponse(message)
  }

  /**
   * What a client can read off a frame: done exactly for the done and error
   * callbacks, an error message exactly for the error callback, content
   * otherwise, and the event itself can be told back from the frame.
   */
  lemma CallbackResponseShape(e: Event)
    ensures CallbackResponse(e).done == Some(!e.Chunk?)
    ensures CallbackResponse(e).errorMessage.Some? == e.Error?
    ensures CallbackResponse(e).content.Some? == !e.Error?
    ensures e.Chunk? ==> CallbackResponse(e).content == Some(e.text)
    ensures e.Error? ==> CallbackResponse(e).errorMessage == Some(e.message)
  {
  }

  /** Different callbacks give different frames: Done and Chunk("") differ in the done flag. */
  lemma CallbackResponseInjective(e1: Event, e2: Event)
    requires CallbackResponse(e1) == CallbackResponse(e2)
    ensures e1 == e2
  {
  }

  // ---------------------------------------------------------------------
  // The connection
  // ---------------------------------------------------------------------

  /** WebSocketSession, as its is-open flag and the frames that went out on it. */
  class WsConnection {
    var open: bool
    var sent: seq<ChatResponseDto>

    constructor (open: bool)
      ensures this.open == open && sent == []
    {
      this.open := open;
      sent := [];
    }

    /** sendMessage: the frame goes out unless the write throws; `fails` says whether it does. */
    method SendMessage(frame: ChatResponseDto, fails: bool) returns (ok: bool)
      modifies this
      ensures ok == (open && !fails)
      ensures open == old(open)
      ensures sent == old(sent) + (if ok then [frame] else [])
    {
      ok := open && !fails;
      if ok {
        sent := sent + [frame];
      }
    }

    /** The peer closes the connection. */
    method Close()
      modifies this
      ensures !open && sent == old(sent)
    {
      open := false;
    }
  }

  /** The frames one send helper puts out: the frame, when the connection is open and the write goes through. */
  function Sends(open: bool, fails: bool, frame: ChatResponseDto): seq<ChatResponseDto>
  {
    if open && !fails then [frame] else []
  }

  /** sendChunk: nothing on a closed connection; otherwise a {content, done} frame, and a failed write is swallowed. */
  method SendChunk(ws: WsConnection, content: string, done: bool, fails: bool)
    modifies ws
    ensures ws.open == old(ws.open)
    ensures ws.sent == old(ws.sent) + Sends(old(ws.open), fails, ChunkResponse(content, done))
  {
    if !ws.open {
      return;
    }
    var response := ChatResponseDto(None, None, None);
    response := response.(content := Some(content));
    response := response.(done := Some(done));
    var _ := ws.SendMessage(response, fails);
  }

  /** sendError: nothing on a closed connection; otherwise a {done: true, errorMessage} frame, and a failed write is swallowed. */
  method SendError(ws: WsConnection, message: string, fails: bool)
    modifies ws
    ensures ws.open == old(ws.open)
    ensures ws.sent == old(ws.sent) + Sends(old(ws.open), fails, ErrorResponse(message))
  {
    if !ws.open {
      return;
    }
    var response := ChatResponseDto(None, None, None);
    response := response.(done := Some(true));
    response := response.(errorMessage := Some(message));
    var _ := ws.SendMessage(response, fails);
  }

  /** The three callbacks handleTextMessage passes to chatStream. */
  method OnEvent(ws: WsConnection, e: Event, fails: bool)
    modifies ws
    ensures ws.open == old(ws.open)
    ensures ws.sent == old(ws.sent) + Sends(old(ws.open), fails, CallbackResponse(e))
  {
    match e {
      case Chunk(text) => SendChunk(ws, text, false, fails);
      case Done => SendChunk(ws, "", true, fails);
      case Error(message) => SendError(ws, message, fails);
    }
  }

  // ---------------------------------------------------------------------
  // The handler
  // ---------------------------------------------------------------------

  /** A text message's payload, as ObjectMapper.readValue sees it: a DTO, or an exception with its message. */
  datatype Payload = Parsed(dto: ChatMessageDto) | Unparsable(message: string)

  /** The frames of a seq of callbacks, one per event. */
  function Responses(events: seq<Event>): (r: seq<ChatResponseDto>)
    ensures |r| == |events|
    ensures forall i :: 0 <= i < |events| ==> r[i] == CallbackResponse(events[i])
  {
    seq(|events|, i requires 0 <= i < |events| => CallbackResponse(events[i]))
  }

  /**
   * The frames handleTextMessage asks to send, one per send attempt, in
   * order: the callbacks' frames, then the catch block's error frame when
   * parsing or chatStream throws.
   */
  function Attempts(st: Snapshot, payload: Payload, now: int, finishTime: int, deltas: seq<string>,
                    outcome: Outcome, store: StoreFault): seq<ChatResponseDto>
  {
    match payload
    case Unparsable(message) => CatchFrames(Threw(message))
    case Parsed(dto) =>
      var t := TransportTurn(dto, now, finishTime, deltas, outcome, store);
      Responses(Fired(st, t)) + CatchFrames(RunTurn(st, t).result)
  }

  /** The catch block's frame: none when the call returned, one "系统异常: " error frame when it threw. */
  function CatchFrames(result: CallResult): seq<ChatResponseDto>
  {
    match result
    case Returned => []
    case Threw(message) => [ErrorResponse(SystemFailurePrefix + message)]
  }

  /**
   * The frames that go out for a seq of attempts on a connection that is
   * `open` at the start, is closed by the peer before attempt `closeAt`, and
   * whose writes throw at the attempts in `sendFails`.
   */
  function Delivered(attempts: seq<ChatResponseDto>, open: bool, closeAt: nat, sendFails: set<nat>): seq<ChatResponseDto>
  {
    if attempts == [] then []
    else
      var n := |attempts| - 1;
      Delivered(attempts[..n], open, closeAt, sendFails) + Sends(open && n < closeAt, n in sendFails, attempts[n])
  }

  /** One more attempt puts out what it alone would put out. */
  lemma DeliveredSnoc(attempts: seq<ChatResponseDto>, frame: ChatResponseDto, open: bool, closeAt: nat, sendFails: set<nat>)
    ensures Delivered(attempts + [frame], open, closeAt, sendFails)
         == Delivered(attempts, open, closeAt, sendFails) + Sends(open && |attempts| < closeAt, |attempts| in sendFails, frame)
  {
    assert (attempts + [frame])[..|attempts|] == attempts;
  }

  /** Send attempt k by the callback of e: the peer's close, if it happens now, then the callback. */
  method CallbackAttempt(ws: WsConnection, e: Event, k: nat, closeAt: nat, sendFails: set<nat>)
    modifies ws
    ensures ws.open == (old(ws.open) && k != closeAt)
    ensures ws.sent == old(ws.sent) + Sends(old(ws.open) && k != closeAt, k in sendFails, CallbackResponse(e))
  {
    if k == closeAt {
      ws.Close();
    }
    OnEvent(ws, e, k in sendFails);
  }

  /** The callbacks of the fired events, in order, the k-th being send attempt k. */
  method ReplayCallbacks(ws: WsConnection, events: seq<Event>, closeAt: nat, sendFails: set<nat>)
    modifies ws
    ensures ws.open == (old(ws.open) && |events| <= closeAt)
    ensures ws.sent == old(ws.sent) + Delivered(Responses(events), old(ws.open), closeAt, sendFails)
  {
    ghost var responses := Responses(events);
    ghost var wasOpen := ws.open;
    ghost var sent0 := ws.sent;
    var k := 0;
    while k < |events|
      invariant 0 <= k <= |events|
      invariant ws.open == (wasOpen && k <= closeAt)
      invariant ws.sent == sent0 + Delivered(responses[..k], wasOpen, closeAt, sendFails)
      modifies ws
    {
      var frame := CallbackResponse(events[k]);
      assert responses[..k + 1] == responses[..k] + [frame];
      DeliveredSnoc(responses[..k], frame, wasOpen, closeAt, sendFails);
      CallbackAttempt(ws, events[k], k, closeAt, sendFails);
      k := k + 1;
    }
    assert responses[..k] == responses;
  }

  /** The catch block as send attempt k: one "系统异常: " error frame. */
  method SendFailure(ws: WsConnection, message: string, k: nat, closeAt: nat, sendFails: set<nat>)
    modifies ws
    ensures ws.open == (old(ws.open) && k != closeAt)
    ensures ws.sent == old(ws.sent) + Sends(old(ws.open) && k != closeAt, k in sendFails, ErrorResponse(SystemFailurePrefix + message))
  {
    if k == closeAt {
      ws.Close();
    }
    SendError(ws, SystemFailurePrefix + message, k in sendFails);
  }

  /** The try block once the payload has parsed: chatStream with the three callbacks, then the catch block if it threw. */
  method HandleParsed(service: ChatService, ws: WsConnection, t: TurnInput, closeAt: nat, sendFails: set<nat>)
    requires service.Valid()
    modifies service, ws
    ensures service.Valid()
    ensures var turn := RunTurn(old(service.State()), t);
      var attempts := Responses(Fired(old(service.State()), t)) + CatchFrames(turn.result);
      && service.State() == turn.after
      && ws.sent == old(ws.sent) + Delivered(attempts, old(ws.open), closeAt, sendFails)
      && ws.open == (old(ws.open) && |attempts| <= closeAt)
  {
    ghost var before := service.State();
    var logged := |service.events|;
    var r := service.ChatStream(t.sessionId, t.userMessage, t.now, t.finishTime, t.deltas, t.outcome, t.faults);
    assert TurnInput(t.sessionId, t.userMessage, t.now, t.finishTime, t.deltas, t.outcome, t.faults) == t;
    ghost var fired := Fired(before, t);
    assert service.events == before.events + fired;
    var events := service.events[logged..];
    assert events == fired;

    ghost var responses := Responses(events);
    ReplayCallbacks(ws, events, closeAt, sendFails);
    ghost var replayed := ws.sent;
    if r.Threw? {
      var frame := ErrorResponse(SystemFailurePrefix + r.message);
      assert CatchFrames(r) == [frame];
      DeliveredSnoc(responses, frame, old(ws.open), closeAt, sendFails);
      SendFailure(ws, r.message, |events|, closeAt, sendFails);
      assert ws.sent == replayed + Sends(old(ws.open) && |responses| < closeAt, |responses| in sendFails, frame);
    } else {
      assert responses + CatchFrames(r) == responses;
    }
  }

  /**
   * handleTextMessage: parse the payload and run chatStream with the three
   * callbacks; an exception from either sends one "系统异常: " error frame.
   */
  method HandleTextMessage(service: ChatService, ws: WsConnection, payload: Payload, now: int, finishTime: int,
                           deltas: seq<string>, outcome: Outcome, store: StoreFault,
                           closeAt: nat, sendFails: set<nat>)
    requires service.Valid()
    modifies service, ws
    ensures service.Valid()
    ensures payload.Unparsable? ==> service.State() == old(service.State())
    ensures payload.Parsed? ==>
      service.State() == RunTurn(old(service.State()), TransportTurn(payload.dto, now, finishTime, deltas, outcome, store)).after
    ensures var attempts := Attempts(old(service.State()), payload, now, finishTime, deltas, outcome, store);
      && ws.sent == old(ws.sent) + Delivered(attempts, old(ws.open), closeAt, sendFails)
      && ws.open == (old(ws.open) && |attempts| <= closeAt)
  {
    match payload {
      case Unparsable(message) =>
        SendFailure(ws, message, 0, closeAt, sendFails);
        DeliveredSnoc([], ErrorResponse(SystemFailurePrefix + message), old(ws.open), closeAt, sendFails);
      case Parsed(dto) =>
        HandleParsed(service, ws, TransportTurn(dto, now, finishTime, deltas, outcome, store), closeAt, sendFails);
    }
  }

  // ---------------------------------------------------------------------
  // What goes out on the connection
  // ---------------------------------------------------------------------

  /** A connection that is not open gets no frame at all. */
  lemma {:induction false} ClosedConnectionGetsNothing(attempts: seq<ChatResponseDto>, closeAt: nat, sendFails: set<nat>)
    ensures Delivered(attempts, false, closeAt, sendFails) == []
    decreases |attempts|
  {
    if attempts != [] {
      ClosedConnectionGetsNothing(attempts[..|attempts| - 1], closeAt, sendFails);
    }
  }

  /** Whether send attempt i goes out: the connection was open, the peer had not yet closed, and the write did not throw. */
  predicate GoesOut(i: nat, open: bool, closeAt: nat, sendFails: set<nat>)
  {
    open && i < closeAt && i !in sendFails
  }

  /** The attempts among the first n that go out, in increasing order. */
  function KeptIndexes(n: nat, open: bool, closeAt: nat, sendFails: set<nat>): (r: seq<nat>)
    ensures forall j :: 0 <= j < |r| ==> r[j] < n
  {
    if n == 0 then []
    else KeptIndexes(n - 1, open, closeAt, sendFails) + (if GoesOut(n - 1, open, closeAt, sendFails) then [n - 1] else [])
  }

  /** KeptIndexes lists, strictly increasing, exactly the attempts below n that go out. */
  lemma {:induction false} KeptIndexesExact(n: nat, open: bool, closeAt: nat, sendFails: set<nat>)
    ensures var r := KeptIndexes(n, open, closeAt, sendFails);
      && (forall j, k :: 0 <= j < k < |r| ==> r[j] < r[k])
      && (forall i: nat :: i in r <==> i < n && GoesOut(i, open, closeAt, sendFails))
  {
    if n > 0 {
      KeptIndexesExact(n - 1, open, closeAt, sendFails);
    }
  }

  /**
   * Each attempt puts out at most its own frame, in order, with no retry:
   * the frames out are exactly the attempts that go out, in the order attempted.
   */
  lemma {:induction false} DeliveredIsSubsequence(attempts: seq<ChatResponseDto>, open: bool, closeAt: nat, sendFails: set<nat>)
    ensures var idx := KeptIndexes(|attempts|, open, closeAt, sendFails);
      Delivered(attempts, open, closeAt, sendFails) == seq(|idx|, j requires 0 <= j < |idx| => attempts[idx[j]])
    decreases |attempts|
  {
    var idx := KeptIndexes(|attempts|, open, closeAt, sendFails);
    if attempts != [] {
      var n := |attempts| - 1;
      var prev := attempts[..n];
      var pidx := KeptIndexes(n, open, closeAt, sendFails);
      DeliveredIsSubsequence(prev, open, closeAt, sendFails);
      assert idx == pidx + (if GoesOut(n, open, closeAt, sendFails) then [n] else []);
      assert forall j :: 0 <= j < |pidx| ==> prev[pidx[j]] == attempts[pidx[j]];
    }
  }

  /** On an open connection that stays open and whose writes all go through, every attempted frame goes out, in order. */
  lemma {:induction false} FaultFreeDeliversAll(attempts: seq<ChatResponseDto>, closeAt: nat, sendFails: set<nat>)
    requires |attempts| <= closeAt
    requires forall k :: k in sendFails ==> k >= |attempts|
    ensures Delivered(attempts, true, closeAt, sendFails) == attempts
    decreases |attempts|
  {
    if attempts != [] {
      var n := |attempts| - 1;
      FaultFreeDeliversAll(attempts[..n], closeAt, sendFails);
      assert attempts[..n] + [attempts[n]] == attempts;
    }
  }

  /** Once the peer has closed the connection, no later attempt puts anything out. */
  lemma {:induction false} NothingAfterClose(attempts: seq<ChatResponseDto>, open: bool, closeAt: nat, sendFails: set<nat>)
    requires closeAt <= |attempts|
    ensures Delivered(attempts, open, closeAt, sendFails) == Delivered(attempts[..closeAt], open, closeAt, sendFails)
    decreases |attempts|
  {
    if closeAt < |attempts| {
      var n := |attempts| - 1;
      NothingAfterClose(attempts[..n], open, closeAt, sendFails);
      assert attempts[..n][..closeAt] == attempts[..closeAt];
    } else {
      assert attempts[..closeAt] == attempts;
    }
  }

  /** The frames a stream's chunk callbacks ask for: {content: delta, done: false}, one per delta. */
  function ChunkResponses(deltas: seq<string>): (r: seq<ChatResponseDto>)
    ensures |r| == |deltas|
    ensures forall i :: 0 <= i < |deltas| ==> r[i] == ChunkResponse(deltas[i], false)
  {
    seq(|deltas|, i requires 0 <= i < |deltas| => ChunkResponse(deltas[i], false))
  }

  lemma ResponsesOfChunks(deltas: seq<string>, e: Event)
    ensures Responses(ChunkEvents(deltas) + [e]) == ChunkResponses(deltas) + [CallbackResponse(e)]
  {
  }

  /** A payload that does not parse: the store is not touched and one "系统异常: " error frame is attempted. */
  lemma ParseFailureSendsOneError(st: Snapshot, message: string, now: int, finishTime: int, deltas: seq<string>,
                                  outcome: Outcome, store: StoreFault)
    ensures Attempts(st, Unparsable(message), now, finishTime, deltas, outcome, store)
         == [ChatResponseDto(None, Some(true), Some(SystemFailurePrefix + message))]
  {
  }

  /** Null or blank text: chatStream returns at once and no frame is attempted. */
  lemma BlankInputSendsNothing(st: Snapshot, dto: ChatMessageDto, now: int, finishTime: int, deltas: seq<string>,
                               outcome: Outcome, store: StoreFault)
    requires IsBlankInput(dto.content)
    ensures Attempts(st, Parsed(dto), now, finishTime, deltas, outcome, store) == []
  {
    BlankInputIsIgnored(st, TransportTurn(dto, now, finishTime, deltas, outcome, store));
    assert Fired(st, TransportTurn(dto, now, finishTime, deltas, outcome, store)) == [];
  }

  /** An unknown or deleted session: one "系统异常: " frame carrying the service's not-found message. */
  lemma UnknownSessionSendsOneError(st: Snapshot, dto: ChatMessageDto, now: int, finishTime: int, deltas: seq<string>,
                                    outcome: Outcome, store: StoreFault)
    requires !IsBlankInput(dto.content) && dto.sessionId.Some?
    requires dto.sessionId.value !in st.sessions || st.sessions[dto.sessionId.value].deleted == Some(1)
    ensures Attempts(st, Parsed(dto), now, finishTime, deltas, outcome, store)
         == [ErrorResponse(SystemFailurePrefix + NotFoundMessage(dto.sessionId.value))]
  {
    var t := TransportTurn(dto, now, finishTime, deltas, outcome, store);
    UnknownSessionThrows(st, t);
    assert Fired(st, t) == [];
  }

  /** A turn where no store call fails: one {delta, false} frame per delta, then the single {"", true} frame. */
  lemma CleanTurnFrames(st: Snapshot, dto: ChatMessageDto, now: int, finishTime: int, deltas: seq<string>)
    requires Resolves(st, TransportTurn(dto, now, finishTime, deltas, Complete, NoStoreFault))
    ensures Attempts(st, Parsed(dto), now, finishTime, deltas, Complete, NoStoreFault)
         == ChunkResponses(deltas) + [ChunkResponse("", true)]
  {
    var t := TransportTurn(dto, now, finishTime, deltas, Complete, NoStoreFault);
    CleanTurnHasOneTerminal(st, t);
    TurnEffect(st, t);
    assert Fired(st, t) == ChunkEvents(deltas) + [Done];
    ResponsesOfChunks(deltas, Done);
  }

  /** A stream that fails after its deltas: their frames, then one "AI 服务异常: " error frame and no done frame. */
  lemma FailedStreamFrames(st: Snapshot, dto: ChatMessageDto, now: int, finishTime: int, deltas: seq<string>,
                           message: string, store: StoreFault)
    requires Resolves(st, TransportTurn(dto, now, finishTime, deltas, Fail(message), store))
    ensures Attempts(st, Parsed(dto), now, finishTime, deltas, Fail(message), store)
         == ChunkResponses(deltas) + [ErrorResponse(BackendFailurePrefix + message)]
  {
    var t := TransportTurn(dto, now, finishTime, deltas, Fail(message), store);
    BackendFailureSavesNoReply(st, t);
    ForwardingIsNotTerminal(deltas, map[]);
    TurnEffect(st, t);
    var e := Error(BackendFailurePrefix + message);
    assert Fired(st, t) == ChunkEvents(deltas) + [e];
    ResponsesOfChunks(deltas, e);
  }
}
