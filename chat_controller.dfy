/**
 * ChatController: the server-sent-events transport of a chat turn.
 *
 * escapeJson and the two frame formats are pure string functions. The
 * SseEmitter is an object whose log of operations (send, complete,
 * completeWithError) the send helpers extend; SendChunk, SendError and Chat
 * model the private helpers and the request handler. The stores and the
 * emitter are disjoint, so Chat runs the service turn and then replays the
 * callbacks it fired, in order, through the emitter: the same operations in
 * the same order as the interleaved original.
 */
module ChatController {
  import opened JavaLang
  import opened Domain
  import opened ChatServiceImpl

  // ---------------------------------------------------------------------
  // escapeJson
  // ---------------------------------------------------------------------

  /** String.replace with a one-char target: every occurrence, left to right. */
  function ReplaceChar(s: string, target: char, replacement: string): (r: string)
    ensures target !in s ==> r == s
  {
    if s == [] then []
    else (if s[0] == target then replacement else [s[0]]) + ReplaceChar(s[1..], target, replacement)
  }

  lemma {:induction false} ReplaceCharAppend(a: string, b: string, target: char, replacement: string)
    ensures ReplaceChar(a + b, target, replacement) == ReplaceChar(a, target, replacement) + ReplaceChar(b, target, replacement)
    decreases |a|
  {
    if a == [] {
      assert a + b == b;
    } else {
      assert (a + b)[0] == a[0] && (a + b)[1..] == a[1..] + b;
      ReplaceCharAppend(a[1..], b, target, replacement);
    }
  }

  /** The replace chain of escapeJson, backslash first. */
  function EscapeChain(s: string): string
  {
    ReplaceChar(ReplaceChar(ReplaceChar(ReplaceChar(ReplaceChar(s,
      '\\', "\\\\"), '"', "\\\""), '\n', "\\n"), '\r', "\\r"), '\t', "\\t")
  }

  /** The five chars escapeJson rewrites. */
  predicate IsEscaped(c: char)
  {
    c == '\\' || c == '"' || c == '\n' || c == '\r' || c == '\t'
  }

  /** The escape of one char: a backslash and a letter for the five, the char itself otherwise. */
  function EscapeChar(c: char): (r: string)
    ensures IsEscaped(c) ==> |r| == 2 && r[0] == '\\'
    ensures !IsEscaped(c) ==> r == [c]
  {
    if c == '\\' then "\\\\"
    else if c == '"' then "\\\""
    else if c == '\n' then "\\n"
    else if c == '\r' then "\\r"
    else if c == '\t' then "\\t"
    else [c]
  }

  /** Reference escaper: each input char escaped on its own, once. */
  function EscapeEach(s: string): string
  {
    if s == [] then [] else EscapeChar(s[0]) + EscapeEach(s[1..])
  }

  lemma EscapeChainAppend(a: string, b: string)
    ensures EscapeChain(a + b) == EscapeChain(a) + EscapeChain(b)
  {
    var a1, b1 := ReplaceChar(a, '\\', "\\\\"), ReplaceChar(b, '\\', "\\\\");
    ReplaceCharAppend(a, b, '\\', "\\\\");
    var a2, b2 := ReplaceChar(a1, '"', "\\\""), ReplaceChar(b1, '"', "\\\"");
    ReplaceCharAppend(a1, b1, '"', "\\\"");
    var a3, b3 := ReplaceChar(a2, '\n', "\\n"), ReplaceChar(b2, '\n', "\\n");
    ReplaceCharAppend(a2, b2, '\n', "\\n");
    var a4, b4 := ReplaceChar(a3, '\r', "\\r"), ReplaceChar(b3, '\r', "\\r");
    ReplaceCharAppend(a3, b3, '\r', "\\r");
    ReplaceCharAppend(a4, b4, '\t', "\\t");
  }

  lemma ReplaceCharSingle(c: char, target: char, replacement: string)
    ensures ReplaceChar([c], target, replacement) == if c == target then replacement else [c]
  {
    assert [c][1..] == [];
  }

  /** On one char the chain produces that char's escape: a later replace never touches an earlier one's output. */
  lemma EscapeChainOfChar(c: char)
    ensures EscapeChain([c]) == EscapeChar(c)
  {
    ReplaceCharSingle(c, '\\', "\\\\");
    if c == '\\' {
      assert '"' !in "\\\\" && '\n' !in "\\\\" && '\r' !in "\\\\" && '\t' !in "\\\\";
    } else {
      ReplaceCharSingle(c, '"', "\\\"");
      if c == '"' {
        assert '\n' !in "\\\"" && '\r' !in "\\\"" && '\t' !in "\\\"";
      } else {
        ReplaceCharSingle(c, '\n', "\\n");
        if c == '\n' {
          assert '\r' !in "\\n" && '\t' !in "\\n";
        } else {
          ReplaceCharSingle(c, '\r', "\\r");
          if c == '\r' {
            assert '\t' !in "\\r";
          } else {
            ReplaceCharSingle(c, '\t', "\\t");
          }
        }
      }
    }
  }

  lemma {:induction false} EscapeChainIsEscapeEach(s: string)
    ensures EscapeChain(s) == EscapeEach(s)
    decreases |s|
  {
    if s != [] {
      assert s == [s[0]] + s[1..];
      EscapeChainAppend([s[0]], s[1..]);
      EscapeChainOfChar(s[0]);
      EscapeChainIsEscapeEach(s[1..]);
    }
  }

  /**
   * escapeJson: null becomes the empty string; otherwise every backslash,
   * quote, LF, CR and TAB is escaped exactly once (the backslash pass runs
   * first, so the backslashes the later passes insert are not doubled).
   */
  function EscapeJson(str: Option<string>): (r: string)
    ensures str.None? ==> r == []
    ensures str.Some? ==> r == EscapeEach(str.value)
  {
    match str
    case None => []
    case Some(s) => EscapeChainIsEscapeEach(s); EscapeChain(s)
  }

  /** The number of chars escapeJson rewrites. */
  function EscapedCount(s: string): nat
  {
    if s == [] then 0 else (if IsEscaped(s[0]) then 1 else 0) + EscapedCount(s[1..])
  }

  /** Each rewritten char grows by exactly one: the output is the input's length plus the count of the five. */
  lemma {:induction false} EscapedLength(s: string)
    ensures |EscapeJson(Some(s))| == |s| + EscapedCount(s)
    decreases |s|
  {
    if s != [] {
      EscapedLength(s[1..]);
    }
  }

  // ---------------------------------------------------------------------
  // Reading the escapes back
  // ---------------------------------------------------------------------

  /** The char a two-char escape written by escapeJson stands for. */
  function UnescapeChar(c: char): Option<char>
  {
    if c == '\\' then Some('\\')
    else if c == '"' then Some('"')
    else if c == 'n' then Some('\n')
    else if c == 'r' then Some('\r')
    else if c == 't' then Some('\t')
    else None
  }

  /** Decode the five two-char escapes; every other char stands for itself. */
  function Unescape(t: string): string
    decreases |t|
  {
    if t == [] then []
    else if t[0] == '\\' && |t| >= 2 && UnescapeChar(t[1]).Some? then [UnescapeChar(t[1]).value] + Unescape(t[2..])
    else [t[0]] + Unescape(t[1..])
  }

  lemma UnescapeOfEscapeChar(c: char, rest: string)
    ensures Unescape(EscapeChar(c) + rest) == [c] + Unescape(rest)
  {
    var t := EscapeChar(c) + rest;
    if IsEscaped(c) {
      assert t[1] == EscapeChar(c)[1] && t[2..] == rest;
    } else {
      assert t[1..] == rest;
    }
  }

  /** Decoding the escapes of escapeJson(s) gives s back, for every s (raw control chars included). */
  lemma {:induction false} UnescapeEscapeJson(s: string)
    ensures Unescape(EscapeJson(Some(s))) == s
    decreases |s|
  {
    if s != [] {
      UnescapeOfEscapeChar(s[0], EscapeEach(s[1..]));
      UnescapeEscapeJson(s[1..]);
      assert [s[0]] + s[1..] == s;
    }
  }

  /**
   * The escapes section 7 of RFC 8259 defines, other than \u followed by
   * four hex digits (escapeJson never writes one; this reader rejects it).
   */
  function JsonEscape(c: char): Option<char>
  {
    if c == '"' then Some('"')
    else if c == '\\' then Some('\\')
    else if c == '/' then Some('/')
    else if c == 'b' then Some('\U{8}')
    else if c == 'f' then Some('\U{C}')
    else if c == 'n' then Some('\n')
    else if c == 'r' then Some('\r')
    else if c == 't' then Some('\t')
    else None
  }

  function Prepend(c: char, r: Option<(string, string)>): Option<(string, string)>
  {
    match r
    case None => None
    case Some(p) => Some(([c] + p.0, p.1))
  }

  /**
   * The body of a JSON string after its opening quote, per section 7 of
   * RFC 8259: the decoded value and the text after the closing quote, or
   * None when the text is not a string (an unterminated string, an unknown
   * escape, or a raw char below U+0020).
   */
  function ReadJsonString(t: string): Option<(string, string)>
    decreases |t|
  {
    if t == [] then None
    else if t[0] == '"' then Some(([], t[1..]))
    else if t[0] < ' ' then None
    else if t[0] == '\\' then
      if |t| < 2 || JsonEscape(t[1]).None? then None
      else Prepend(JsonEscape(t[1]).value, ReadJsonString(t[2..]))
    else Prepend(t[0], ReadJsonString(t[1..]))
  }

  /** No char below U+0020 is left unescaped by escapeJson. */
  predicate NoRawControl(s: string)
  {
    forall i :: 0 <= i < |s| ==> s[i] >= ' ' || IsEscaped(s[i])
  }

  lemma NoRawControlCons(s: string)
    requires s != []
    ensures NoRawControl(s) == ((s[0] >= ' ' || IsEscaped(s[0])) && NoRawControl(s[1..]))
  {
    if (s[0] >= ' ' || IsEscaped(s[0])) && NoRawControl(s[1..]) {
      forall i | 0 <= i < |s|
        ensures s[i] >= ' ' || IsEscaped(s[i])
      {
        if i > 0 {
          assert s[i] == s[1..][i - 1];
        }
      }
    }
    if NoRawControl(s) {
      forall i | 0 <= i < |s[1..]|
        ensures s[1..][i] >= ' ' || IsEscaped(s[1..][i])
      {
        assert s[1..][i] == s[i + 1];
      }
    }
  }

  /**
   * The output of escapeJson, closed by a quote, is a JSON string holding
   * exactly the input if and only if the input has no control char other
   * than LF, CR and TAB; any other char below U+0020 is passed through raw,
   * which RFC 8259 forbids.
   */
  lemma {:induction false} ReadEscapedString(s: string, rest: string)
    ensures ReadJsonString(EscapeJson(Some(s)) + "\"" + rest) == if NoRawControl(s) then Some((s, rest)) else None
    decreases |s|
  {
    var t := EscapeEach(s) + "\"" + rest;
    if s == [] {
      assert t == "\"" + rest;
      assert t[1..] == rest;
    } else {
      var c := s[0];
      var tail := EscapeEach(s[1..]) + "\"" + rest;
      assert t == EscapeChar(c) + tail;
      ReadEscapedString(s[1..], rest);
      NoRawControlCons(s);
      ReadEscapedChar(c, tail);
      assert [c] + s[1..] == s;
    }
  }

  /** The reader takes one escaped char back, or stops at a raw control char. */
  lemma ReadEscapedChar(c: char, tail: string)
    ensures ReadJsonString(EscapeChar(c) + tail)
         == if c >= ' ' || IsEscaped(c) then Prepend(c, ReadJsonString(tail)) else None
  {
    var t := EscapeChar(c) + tail;
    if IsEscaped(c) {
      assert t[0] == '\\' && t[1] == EscapeChar(c)[1] && t[2..] == tail;
      assert JsonEscape(t[1]) == Some(c);
    } else {
      assert t[0] == c && t[1..] == tail;
    }
  }

  // ---------------------------------------------------------------------
  // Frames
  // ---------------------------------------------------------------------

  const ModelName := "glm-4.5-flash"
  const DoneData := "[DONE]"
  const SystemFailurePrefix := "系统异常: "

  /** The two System.currentTimeMillis readings of a chunk frame: for `created`, then for the id. */
  datatype SseClock = SseClock(createdMillis: int, idMillis: int)

  /** The chunk frame up to the value of `created`. */
  function ChunkIdPart(idMillis: int): string
  {
    "{\"id\":\"chatcmpl-" + LongToString(idMillis) + "\",\"object\":\"chat.completion.chunk\",\"created\":"
  }

  /** The chunk frame from the value of `created` to the opening quote of delta.content. */
  const ChunkModelPart := ",\"model\":\"" + ModelName + "\",\"choices\":[{\"index\":0,\"delta\":{\"content\":\""

  function ChunkHead(clock: SseClock): string
  {
    ChunkIdPart(clock.idMillis) + LongToString(EpochSeconds(clock.createdMillis)) + ChunkModelPart
  }

  /** The chunk frame after the closing quote of delta.content. */
  const ChunkTail := "},\"finish_reason\":null}]}"

  /** The data of a chunk event (the format string of sendChunk). */
  function ChunkJson(content: string, clock: SseClock): string
  {
    ChunkHead(clock) + EscapeJson(Some(content)) + "\"" + ChunkTail
  }

  const ErrorHead := "{\"error\":{\"message\":\""
  const ErrorTail := ",\"type\":\"invalid_request_error\"}}"

  /** The data of an error event (the format string of sendError). */
  function ErrorJson(message: string): string
  {
    ErrorHead + EscapeJson(Some(message)) + "\"" + ErrorTail
  }

  lemma ReadAfterHead(head: string, s: string, tail: string)
    ensures var f := head + EscapeJson(Some(s)) + "\"" + tail;
      && |head| <= |f| && f[..|head|] == head
      && ReadJsonString(f[|head|..]) == if NoRawControl(s) then Some((s, tail)) else None
  {
    var body := EscapeJson(Some(s)) + "\"" + tail;
    assert head + EscapeJson(Some(s)) + "\"" + tail == head + body;
    assert (head + body)[|head|..] == body;
    ReadEscapedString(s, tail);
  }

  /**
   * A JSON reader positioned after the head of a chunk frame reads back
   * exactly the chunk as delta.content, followed by the rest of the frame,
   * unless the chunk has a raw control char, when the frame is not JSON.
   */
  lemma ChunkFrameCarriesContent(content: string, clock: SseClock)
    ensures var f := ChunkJson(content, clock); var h := ChunkHead(clock);
      && |h| <= |f| && f[..|h|] == h
      && ReadJsonString(f[|h|..]) == if NoRawControl(content) then Some((content, ChunkTail)) else None
  {
    ReadAfterHead(ChunkHead(clock), content, ChunkTail);
  }

  /** Likewise for error.message in an error frame. */
  lemma ErrorFrameCarriesMessage(message: string)
    ensures var f := ErrorJson(message);
      && |ErrorHead| <= |f| && f[..|ErrorHead|] == ErrorHead
      && ReadJsonString(f[|ErrorHead|..]) == if NoRawControl(message) then Some((message, ErrorTail)) else None
  {
    ReadAfterHead(ErrorHead, message, ErrorTail);
  }

  lemma SliceMiddle(a: string, b: string, c: string)
    ensures (a + b + c)[|a|..|a| + |b|] == b
  {
  }

  /** The `created` field holds the first clock reading in whole seconds, truncated toward zero. */
  lemma ChunkCreatedIsSeconds(clock: SseClock)
    ensures var p := ChunkIdPart(clock.idMillis); var digits := LongToString(EpochSeconds(clock.createdMillis));
      && ChunkHead(clock)[|p|..|p| + |digits|] == digits
      && (clock.createdMillis >= 0 ==> DigitsValue(digits) * 1000 <= clock.createdMillis < DigitsValue(digits) * 1000 + 1000)
  {
    var p := ChunkIdPart(clock.idMillis);
    var digits := LongToString(EpochSeconds(clock.createdMillis));
    SliceMiddle(p, digits, ChunkModelPart);
    LongToStringRoundTrip(EpochSeconds(clock.createdMillis));
  }

  // ---------------------------------------------------------------------
  // The emitter
  // ---------------------------------------------------------------------

  /** The data of one SSE event sendChunk or sendError builds; Data gives its exact text. */
  datatype Frame = ChunkFrame(content: string, clock: SseClock) | DoneFrame | ErrorFrame(message: string)

  /** The text of the event's data line. */
  function Data(f: Frame): string
  {
    match f
    case ChunkFrame(content, clock) => ChunkJson(content, clock)
    case DoneFrame => DoneData
    case ErrorFrame(message) => ErrorJson(message)
  }

  /**
   * Only the done sentinel is the literal [DONE]: every chunk and error frame
   * starts with '{' and ends with '}', so it is never taken for the sentinel.
   * (It is valid JSON only when its text has no raw control char; see
   * ChunkFrameCarriesContent.)
   */
  lemma OnlyDoneIsSentinel(f: Frame)
    ensures (Data(f) == DoneData) == f.DoneFrame?
    ensures !f.DoneFrame? ==> |Data(f)| >= 2 && Data(f)[0] == '{' && Data(f)[|Data(f)| - 1] == '}'
  {
    if !f.DoneFrame? {
      var d := Data(f);
      var tail := if f.ChunkFrame? then ChunkTail else ErrorTail;
      assert d[0] == '{';
      assert d[|d| - |tail|..] == tail;
      assert d[|d| - 1] == tail[|tail| - 1] == '}';
      assert d[0] != DoneData[0];
    }
  }

  /** An operation on an SseEmitter: a send that went through, complete, or completeWithError. */
  datatype EmitterOp = Sent(frame: Frame) | Completed | CompletedWithError

  /** What the client receives: the frames sent before the emitter is first completed. */
  function Delivered(ops: seq<EmitterOp>): seq<Frame>
  {
    if ops == [] then []
    else if ops[0].Sent? then [ops[0].frame] + Delivered(ops[1..])
    else []
  }

  /** How the response ends: the first completion, or None while the emitter is open. */
  function Completion(ops: seq<EmitterOp>): (r: Option<EmitterOp>)
    ensures r.Some? ==> !r.value.Sent?
  {
    if ops == [] then None
    else if ops[0].Sent? then Completion(ops[1..])
    else Some(ops[0])
  }

  /** SseEmitter, as the log of the operations called on it. */
  class SseEmitter {
    var ops: seq<EmitterOp>

    /** new SseEmitter(0L): open, with no timeout. */
    constructor ()
      ensures ops == []
    {
      ops := [];
    }

    /** send: delivers the event unless the write throws an IOException. */
    method Send(frame: Frame, ioFails: bool) returns (ok: bool)
      modifies this
      ensures ok == !ioFails
      ensures ops == old(ops) + (if ioFails then [] else [Sent(frame)])
    {
      ok := !ioFails;
      if ok {
        ops := ops + [Sent(frame)];
      }
    }

    method Complete()
      modifies this
      ensures ops == old(ops) + [Completed]
    {
      ops := ops + [Completed];
    }

    method CompleteWithError()
      modifies this
      ensures ops == old(ops) + [CompletedWithError]
    {
      ops := ops + [CompletedWithError];
    }
  }

  /** The operations of sendChunk: one send, or completeWithError when the send throws. */
  function ChunkOps(content: string, done: bool, clock: SseClock, ioFails: bool): seq<EmitterOp>
  {
    if ioFails then [CompletedWithError] else [Sent(if done then DoneFrame else ChunkFrame(content, clock))]
  }

  /** The operations of sendError: send then complete, or completeWithError when the send throws. */
  function ErrorOps(message: string, ioFails: bool): seq<EmitterOp>
  {
    if ioFails then [CompletedWithError] else [Sent(ErrorFrame(message)), Completed]
  }

  /** The operations of the callback the k-th fired event runs; ioFails holds the indexes of the sends that throw. */
  function CallbackOps(e: Event, k: nat, clock: nat -> SseClock, ioFails: set<nat>): seq<EmitterOp>
  {
    match e
    case Chunk(text) => ChunkOps(text, false, clock(k), k in ioFails)
    case Done => ChunkOps("", true, clock(k), k in ioFails) + [Completed]
    case Error(message) => ErrorOps(message, k in ioFails) + [Completed]
  }

  /** The operations of the callbacks of a turn's events, in order. */
  function ReplayOps(events: seq<Event>, clock: nat -> SseClock, ioFails: set<nat>): seq<EmitterOp>
  {
    if events == [] then []
    else ReplayOps(events[..|events| - 1], clock, ioFails) + CallbackOps(events[|events| - 1], |events| - 1, clock, ioFails)
  }

  /** The operations of the handler: the callbacks, then on a throw the catch block's error frame and completeWithError. */
  function ChatOps(result: CallResult, fired: seq<Event>, clock: nat -> SseClock, ioFails: set<nat>): seq<EmitterOp>
  {
    ReplayOps(fired, clock, ioFails)
    + match result
      case Returned => []
      case Threw(message) => ErrorOps(SystemFailurePrefix + message, |fired| in ioFails) + [CompletedWithError]
  }

  /** The chunk frames of a stream, one per delta, the i-th with clock reading i. */
  function ChunkFrames(deltas: seq<string>, clock: nat -> SseClock): (r: seq<Frame>)
    ensures |r| == |deltas|
    ensures forall i :: 0 <= i < |deltas| ==> r[i] == ChunkFrame(deltas[i], clock(i))
  {
    seq(|deltas|, i requires 0 <= i < |deltas| => ChunkFrame(deltas[i], clock(i)))
  }

  // ---------------------------------------------------------------------
  // The helpers and the handler
  // ---------------------------------------------------------------------

  /** sendChunk: the sentinel for done, a chunk frame otherwise; an IOException completes the emitter with error. */
  method SendChunk(emitter: SseEmitter, content: string, done: bool, clock: SseClock, ioFails: bool)
    modifies emitter
    ensures emitter.ops == old(emitter.ops) + ChunkOps(content, done, clock, ioFails)
  {
    var ok: bool;
    if done {
      ok := emitter.Send(DoneFrame, ioFails);
    } else {
      ok := emitter.Send(ChunkFrame(content, clock), ioFails);
    }
    if !ok {
      emitter.CompleteWithError();
    }
  }

  /** sendError: send the error frame and complete; an IOException completes the emitter with error. */
  method SendError(emitter: SseEmitter, message: string, ioFails: bool)
    modifies emitter
    ensures emitter.ops == old(emitter.ops) + ErrorOps(message, ioFails)
  {
    var ok := emitter.Send(ErrorFrame(message), ioFails);
    if ok {
      emitter.Complete();
    } else {
      emitter.CompleteWithError();
    }
  }

  /** The three callbacks chat passes to chatStream, for the k-th callback fired. */
  method OnEvent(emitter: SseEmitter, e: Event, k: nat, clock: nat -> SseClock, ioFails: set<nat>)
    modifies emitter
    ensures emitter.ops == old(emitter.ops) + CallbackOps(e, k, clock, ioFails)
  {
    match e {
      case Chunk(text) =>
        SendChunk(emitter, text, false, clock(k), k in ioFails);
      case Done =>
        SendChunk(emitter, "", true, clock(k), k in ioFails);
        emitter.Complete();
      case Error(message) =>
        SendError(emitter, message, k in ioFails);
        emitter.Complete();
    }
  }

  /**
   * chat: a new emitter, then chatStream with the three callbacks; an
   * exception out of chatStream sends "系统异常: " and its message and
   * completes the emitter with error.
   */
  method Chat(service: ChatService, dto: ChatMessageDto, now: int, finishTime: int, deltas: seq<string>,
              outcome: Outcome, store: StoreFault, clock: nat -> SseClock, ioFails: set<nat>)
    returns (emitter: SseEmitter)
    requires service.Valid()
    modifies service
    ensures fresh(emitter) && service.Valid()
    ensures var t := TransportTurn(dto, now, finishTime, deltas, outcome, store);
      var turn := RunTurn(old(service.State()), t);
      && service.State() == turn.after
      && emitter.ops == ChatOps(turn.result, Fired(old(service.State()), t), clock, ioFails)
  {
    emitter := new SseEmitter();
    ghost var before := service.State();
    var t := TransportTurn(dto, now, finishTime, deltas, outcome, store);
    var logged := |service.events|;
    var r := service.ChatStream(t.sessionId, t.userMessage, t.now, t.finishTime, t.deltas, t.outcome, t.faults);
    assert TurnInput(t.sessionId, t.userMessage, t.now, t.finishTime, t.deltas, t.outcome, t.faults) == t;
    ghost var fired := Fired(before, t);
    assert service.events == before.events + fired;
    var events := service.events[logged..];
    assert events == fired;

    var k := 0;
    while k < |events|
      invariant 0 <= k <= |events|
      invariant emitter.ops == ReplayOps(events[..k], clock, ioFails)
      modifies emitter
    {
      assert events[..k + 1][..k] == events[..k];
      OnEvent(emitter, events[k], k, clock, ioFails);
      k := k + 1;
    }
    assert events[..k] == events;

    if r.Threw? {
      SendError(emitter, SystemFailurePrefix + r.message, k in ioFails);
      emitter.CompleteWithError();
    }
  }

  // ---------------------------------------------------------------------
  // What the client receives
  // ---------------------------------------------------------------------

  /** The done callback sends exactly the sentinel and completes. */
  lemma DoneSendsSentinel(k: nat, clock: nat -> SseClock, ioFails: set<nat>)
    requires k !in ioFails
    ensures Delivered(CallbackOps(Done, k, clock, ioFails)) == [DoneFrame]
    ensures Completion(CallbackOps(Done, k, clock, ioFails)) == Some(Completed)
  {
    var ops := CallbackOps(Done, k, clock, ioFails);
    assert ops == [Sent(DoneFrame), Completed];
    assert ops[1..] == [Completed];
  }

  /** The error callback sends exactly the error frame and completes. */
  lemma ErrorSendsErrorFrame(message: string, k: nat, clock: nat -> SseClock, ioFails: set<nat>)
    requires k !in ioFails
    ensures Delivered(CallbackOps(Error(message), k, clock, ioFails)) == [ErrorFrame(message)]
    ensures Completion(CallbackOps(Error(message), k, clock, ioFails)) == Some(Completed)
  {
    var ops := CallbackOps(Error(message), k, clock, ioFails);
    assert ops == [Sent(ErrorFrame(message)), Completed, Completed];
    assert ops[1..] == [Completed, Completed];
  }

  /** A send that throws delivers nothing and completes the emitter with error, whatever the callback. */
  lemma IoFailureCompletesWithError(e: Event, k: nat, clock: nat -> SseClock, ioFails: set<nat>)
    requires k in ioFails
    ensures Delivered(CallbackOps(e, k, clock, ioFails)) == []
    ensures Completion(CallbackOps(e, k, clock, ioFails)) == Some(CompletedWithError)
  {
  }

  /** Each callback issues at most one send that goes through, and it comes first. */
  lemma CallbackSendsAtMostOnce(e: Event, k: nat, clock: nat -> SseClock, ioFails: set<nat>)
    ensures |Delivered(CallbackOps(e, k, clock, ioFails))| <= 1
    ensures forall i :: 1 <= i < |CallbackOps(e, k, clock, ioFails)| ==> !CallbackOps(e, k, clock, ioFails)[i].Sent?
  {
    var ops := CallbackOps(e, k, clock, ioFails);
    if k !in ioFails && !e.Chunk? {
      assert ops[1..][0] == ops[1];
    }
  }

  lemma {:induction false} DeliveredAppend(a: seq<EmitterOp>, b: seq<EmitterOp>)
    requires forall i :: 0 <= i < |a| ==> a[i].Sent?
    ensures Delivered(a + b) == Delivered(a) + Delivered(b)
    ensures Completion(a + b) == Completion(b)
    decreases |a|
  {
    if a == [] {
      assert a + b == b;
    } else {
      assert (a + b)[0] == a[0] && (a + b)[1..] == a[1..] + b;
      DeliveredAppend(a[1..], b);
    }
  }

  /** The sends of a seq of frames. */
  function SentAll(frames: seq<Frame>): (r: seq<EmitterOp>)
    ensures |r| == |frames|
    ensures forall i :: 0 <= i < |r| ==> r[i] == Sent(frames[i])
  {
    seq(|frames|, i requires 0 <= i < |frames| => Sent(frames[i]))
  }

  lemma {:induction false} DeliveredSentAll(frames: seq<Frame>)
    ensures Delivered(SentAll(frames)) == frames
    decreases |frames|
  {
    if frames != [] {
      assert SentAll(frames)[1..] == SentAll(frames[1..]);
      DeliveredSentAll(frames[1..]);
      assert [frames[0]] + frames[1..] == frames;
    }
  }

  /** With no send failing, the chunk callbacks of a stream send one chunk frame per delta, in order. */
  lemma {:induction false} ReplayChunks(deltas: seq<string>, clock: nat -> SseClock)
    ensures ReplayOps(ChunkEvents(deltas), clock, {}) == SentAll(ChunkFrames(deltas, clock))
    decreases |deltas|
  {
    if deltas != [] {
      var n := |deltas| - 1;
      var events := ChunkEvents(deltas);
      assert events[..n] == ChunkEvents(deltas[..n]);
      ReplayChunks(deltas[..n], clock);
      assert SentAll(ChunkFrames(deltas, clock)) == SentAll(ChunkFrames(deltas[..n], clock)) + [Sent(ChunkFrame(deltas[n], clock(n)))];
    }
  }

  lemma ReplayLast(events: seq<Event>, e: Event, clock: nat -> SseClock, ioFails: set<nat>)
    ensures ReplayOps(events + [e], clock, ioFails) == ReplayOps(events, clock, ioFails) + CallbackOps(e, |events|, clock, ioFails)
  {
    assert (events + [e])[..|events|] == events;
  }

  /** Null or blank text: chatStream returns at once, nothing is sent and the emitter is never completed. */
  lemma BlankInputLeavesEmitterOpen(st: Snapshot, t: TurnInput, clock: nat -> SseClock, ioFails: set<nat>)
    requires IsBlankInput(t.userMessage)
    ensures var ops := ChatOps(RunTurn(st, t).result, Fired(st, t), clock, ioFails);
      Delivered(ops) == [] && Completion(ops) == None
  {
    BlankInputIsIgnored(st, t);
    assert Fired(st, t) == [];
  }

  /** An unknown or deleted session: one "系统异常: " error frame, then complete and completeWithError. */
  lemma UnknownSessionSendsOneError(st: Snapshot, t: TurnInput, clock: nat -> SseClock, ioFails: set<nat>)
    requires !IsBlankInput(t.userMessage) && t.sessionId.Some?
    requires t.sessionId.value !in st.sessions || st.sessions[t.sessionId.value].deleted == Some(1)
    ensures var ops := ChatOps(RunTurn(st, t).result, Fired(st, t), clock, ioFails);
      ops == if 0 in ioFails then [CompletedWithError, CompletedWithError]
             else [Sent(ErrorFrame(SystemFailurePrefix + NotFoundMessage(t.sessionId.value))), Completed, CompletedWithError]
  {
    UnknownSessionThrows(st, t);
    assert Fired(st, t) == [];
  }

  /** A turn where nothing fails delivers one chunk frame per delta, then the sentinel, and completes normally. */
  lemma CleanChatDeliversChunksThenDone(st: Snapshot, dto: ChatMessageDto, now: int, finishTime: int,
                                         deltas: seq<string>, clock: nat -> SseClock)
    requires Resolves(st, TransportTurn(dto, now, finishTime, deltas, Complete, NoStoreFault))
    ensures var t := TransportTurn(dto, now, finishTime, deltas, Complete, NoStoreFault);
      var ops := ChatOps(RunTurn(st, t).result, Fired(st, t), clock, {});
      && Delivered(ops) == ChunkFrames(deltas, clock) + [DoneFrame]
      && Completion(ops) == Some(Completed)
  {
    var t := TransportTurn(dto, now, finishTime, deltas, Complete, NoStoreFault);
    CleanTurnHasOneTerminal(st, t);
    TurnEffect(st, t);
    var fired := Fired(st, t);
    assert fired == ChunkEvents(deltas) + [Done];
    ReplayLast(ChunkEvents(deltas), Done, clock, {});
    ReplayChunks(deltas, clock);
    var chunks := SentAll(ChunkFrames(deltas, clock));
    var tail := CallbackOps(Done, |deltas|, clock, {});
    assert ChatOps(Returned, fired, clock, {}) == chunks + tail;
    DeliveredAppend(chunks, tail);
    DeliveredSentAll(ChunkFrames(deltas, clock));
    DoneSendsSentinel(|deltas|, clock, {});
  }

  /**
   * A stream that fails after its deltas delivers their chunk frames and one
   * "AI 服务异常: " error frame, and completes normally.
   */
  lemma FailedStreamDeliversChunksThenError(st: Snapshot, dto: ChatMessageDto, now: int, finishTime: int,
                                            deltas: seq<string>, message: string, store: StoreFault,
                                            clock: nat -> SseClock)
    requires Resolves(st, TransportTurn(dto, now, finishTime, deltas, Fail(message), store))
    ensures var t := TransportTurn(dto, now, finishTime, deltas, Fail(message), store);
      var ops := ChatOps(RunTurn(st, t).result, Fired(st, t), clock, {});
      && Delivered(ops) == ChunkFrames(deltas, clock) + [ErrorFrame(BackendFailurePrefix + message)]
      && Completion(ops) == Some(Completed)
  {
    var t := TransportTurn(dto, now, finishTime, deltas, Fail(message), store);
    BackendFailureSavesNoReply(st, t);
    ForwardingIsNotTerminal(deltas, map[]);
    TurnEffect(st, t);
    var fired := Fired(st, t);
    var e := Error(BackendFailurePrefix + message);
    assert fired == ChunkEvents(deltas) + [e];
    ReplayLast(ChunkEvents(deltas), e, clock, {});
    ReplayChunks(deltas, clock);
    var chunks := SentAll(ChunkFrames(deltas, clock));
    var tail := CallbackOps(e, |deltas|, clock, {});
    assert ChatOps(Returned, fired, clock, {}) == chunks + tail;
    DeliveredAppend(chunks, tail);
    DeliveredSentAll(ChunkFrames(deltas, clock));
    ErrorSendsErrorFrame(BackendFailurePrefix + message, |deltas|, clock, {});
  }
}
