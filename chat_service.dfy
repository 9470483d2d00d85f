/**
 * ChatServiceImpl.chatStream: one streaming chat turn over the session store,
 * the message store and the model's signal stream.
 *
 * The turn is specified by the pure function RunTurn over a Snapshot of the
 * two stores and of the callbacks fired so far; the class ChatService holds
 * the same state in fields and its method ChatStream computes it step by
 * step, as the Java code does. The model's reply is given as its deltas
 * (the onNext signals, in arrival order) and how the stream ends (onComplete
 * or onError). Exceptions thrown by code outside chatStream (a callback, a
 * store call in the completion handler) are inputs too: Faults.
 */
module ChatServiceImpl {
  import opened JavaLang
  import opened Domain

  // ---------------------------------------------------------------------
  // Callbacks, stream signals and faults
  // ---------------------------------------------------------------------

  /** A callback fired by chatStream: ChunkCallback.onChunk, DoneCallback.onDone, ErrorCallback.onError. */
  datatype Event = Chunk(text: string) | Done | Error(message: string)

  /** How the model's stream ends after its deltas: onComplete, or onError with the error's message. */
  datatype Outcome = Complete | Fail(message: string)

  /** The store call of the completion handler that throws, if any, with the exception's message. */
  datatype StoreFault =
    | NoStoreFault
    | SaveFails(message: string)     // messageService.save(assistantMsg)
    | RefetchFails(message: string)  // sessionService.getById(currentSessionId)
    | UpdateFails(message: string)   // sessionService.updateById(updateSession)

  /**
   * Exceptions from code chatStream calls but does not own:
   * `forward[k]` is the message of the exception the chunk callback throws on
   * the k-th delta (0-based); `store` is a failing store call in the
   * completion handler; `done` is the message of an exception the done
   * callback throws.
   */
  datatype Faults = Faults(forward: map<nat, string>, store: StoreFault, done: Option<string>)

  /** How chatStream returns to its caller: normally, or by throwing. */
  datatype CallResult = Returned | Threw(message: string)

  /** The session table with its next auto-increment id, the message table with its next id, and the callbacks fired. */
  datatype Snapshot = Snapshot(
    sessions: map<int, Session>,
    nextSessionId: int,
    messages: seq<Message>,
    nextMessageId: int,
    events: seq<Event>)

  /** The arguments of one call: the DTO's two fields, the two clock readings, and the model's stream. */
  datatype TurnInput = TurnInput(
    sessionId: Option<int>,
    userMessage: Option<string>,
    now: int,
    finishTime: int,
    deltas: seq<string>,
    outcome: Outcome,
    faults: Faults)

  datatype TurnOutcome = TurnOutcome(after: Snapshot, result: CallResult)

  const TitleMaxLength := 30
  const ChunkFailurePrefix := "处理消息片段异常: "
  const BackendFailurePrefix := "AI 服务异常: "
  const FinishFailurePrefix := "保存消息或完成回调异常: "

  /** The message of the IllegalArgumentException for an unknown or deleted session. */
  function NotFoundMessage(sessionId: int): string
  {
    "会话不存在或已删除，sessionId=" + LongToString(sessionId)
  }

  // ---------------------------------------------------------------------
  // generateTitleFromMessage
  // ---------------------------------------------------------------------

  /** The trimmed message, cut to 30 chars with "..." appended when it is longer. */
  function GenerateTitle(message: string): (title: string)
    ensures |title| <= TitleMaxLength + 3
  {
    var trimmed := Trim(message);
    if |trimmed| <= TitleMaxLength then trimmed else trimmed[..TitleMaxLength] + "..."
  }

  /** The title keeps the start of the trimmed message: all of it, or its first 30 chars followed by "...". */
  lemma TitleShape(message: string)
    ensures var t := Trim(message); var title := GenerateTitle(message);
      && (|t| <= TitleMaxLength ==> title == t)
      && (|t| > TitleMaxLength ==> |title| == TitleMaxLength + 3 && title[..TitleMaxLength] == t[..TitleMaxLength] && title[TitleMaxLength..] == "...")
  {
  }

  /** A title is its own title. */
  lemma TitleIdempotent(message: string)
    ensures GenerateTitle(GenerateTitle(message)) == GenerateTitle(message)
  {
    var t := Trim(message);
    var title := GenerateTitle(message);
    if |t| <= TitleMaxLength {
      assert title == t;
      TrimIdempotent(message);
      assert Trim(title) == title;
    } else {
      assert title == t[..TitleMaxLength] + "...";
      assert title[0] == t[0] && title[|title| - 1] == '.';
      TrimKeepsTrimmed(title);
      assert |title| == TitleMaxLength + 3;
      assert title[..TitleMaxLength] + "..." == title;
    }
  }

  /**
   * isBlank (Unicode whitespace) and trim (chars up to U+0020) disagree:
   * an ideographic space is blank but not trimmed, and U+0001 is not blank
   * yet trims away, so a turn can create a session with an empty title.
   */
  lemma BlankAndTrimDisagree()
    ensures IsBlank("\U{3000}") && Trim("\U{3000}") == "\U{3000}"
    ensures !IsBlank("\U{1}") && GenerateTitle("\U{1}") == ""
  {
    assert !IsWhitespace("\U{1}"[0]);
  }

  // ---------------------------------------------------------------------
  // The turn as a function of the stores
  // ---------------------------------------------------------------------

  /** The store invariant: ids below the counters, session rows filed under their own id, messages owned by a session. */
  ghost predicate ValidSnapshot(st: Snapshot)
  {
    && (forall id :: id in st.sessions ==> id < st.nextSessionId && st.sessions[id].sessionId == id)
    && (forall i :: 0 <= i < |st.messages| ==> st.messages[i].id < st.nextMessageId && st.messages[i].sessionId in st.sessions)
  }

  /** The input check at the top of chatStream: null or blank text is dropped. */
  predicate IsBlankInput(userMessage: Option<string>)
  {
    userMessage.None? || IsBlank(userMessage.value)
  }

  /** A session row counts as deleted only when its flag is non-null and equal to 1. */
  predicate IsLive(s: Session)
  {
    s.deleted != Some(1)
  }

  function Fire(st: Snapshot, e: Event): Snapshot
  {
    st.(events := st.events + [e])
  }

  /** messageService.save: the row gets the next auto-increment id. */
  function SaveMessageTo(st: Snapshot, sessionId: int, role: Role, content: string): Snapshot
  {
    st.(messages := st.messages + [Message(st.nextMessageId, sessionId, role, content, Some(0))],
        nextMessageId := st.nextMessageId + 1)
  }

  /** The concatenation of the deltas, in order (what the StringBuilder holds). */
  function Concat(ss: seq<string>): string
  {
    if ss == [] then [] else Concat(ss[..|ss| - 1]) + ss[|ss| - 1]
  }

  /** The callbacks fired for delta number k: the chunk, and an error if forwarding it threw. */
  function ForwardOne(chunk: string, k: nat, forward: map<nat, string>): seq<Event>
  {
    [Chunk(chunk)] + (if k in forward then [Error(ChunkFailurePrefix + forward[k])] else [])
  }

  /** The callbacks fired by the onNext handler over all the deltas. */
  function ForwardEvents(deltas: seq<string>, forward: map<nat, string>): seq<Event>
  {
    if deltas == [] then []
    else ForwardEvents(deltas[..|deltas| - 1], forward) + ForwardOne(deltas[|deltas| - 1], |deltas| - 1, forward)
  }

  /** sessionService.updateById of the row with a new updateTime, when the row is there. */
  function Refresh(sessions: map<int, Session>, sessionId: int, time: int): map<int, Session>
  {
    if sessionId in sessions then sessions[sessionId := sessions[sessionId].(updateTime := time)] else sessions
  }

  /** The onComplete handler: save the reply, refresh the session, fire done; a throw fires one error instead. */
  function Finish(st: Snapshot, sessionId: int, content: string, finishTime: int, faults: Faults): Snapshot
  {
    if faults.store.SaveFails? then Fire(st, Error(FinishFailurePrefix + faults.store.message))
    else
      var saved := SaveMessageTo(st, sessionId, Assistant, content);
      if faults.store.RefetchFails? then Fire(saved, Error(FinishFailurePrefix + faults.store.message))
      else if sessionId in saved.sessions && faults.store.UpdateFails? then
        Fire(saved, Error(FinishFailurePrefix + faults.store.message))
      else
        var done := Fire(saved.(sessions := Refresh(saved.sessions, sessionId, finishTime)), Done);
        if faults.done.Some? then Fire(done, Error(FinishFailurePrefix + faults.done.value)) else done
  }

  /** Everything from the subscription on: the deltas, then the terminal signal. */
  function Streamed(st: Snapshot, sessionId: int, t: TurnInput): Snapshot
  {
    var forwarded := st.(events := st.events + ForwardEvents(t.deltas, t.faults.forward));
    match t.outcome
    case Fail(message) => Fire(forwarded, Error(BackendFailurePrefix + message))
    case Complete => Finish(forwarded, sessionId, Concat(t.deltas), t.finishTime, t.faults)
  }

  /** The turn gets past session resolution: non-blank text, and no id or the id of a live session. */
  predicate Resolves(st: Snapshot, t: TurnInput)
  {
    && !IsBlankInput(t.userMessage)
    && (t.sessionId.Some? ==> t.sessionId.value in st.sessions && IsLive(st.sessions[t.sessionId.value]))
  }

  /** The id of the session the turn writes to: the new row's auto-increment id, or the fetched row's id. */
  function TurnSessionId(st: Snapshot, t: TurnInput): int
    requires Resolves(st, t)
  {
    if t.sessionId.None? then st.nextSessionId else st.sessions[t.sessionId.value].sessionId
  }

  /** Session resolution: save a new titled session, or stamp the fetched one with the start time. */
  function Opened(st: Snapshot, t: TurnInput): Snapshot
    requires Resolves(st, t)
  {
    if t.sessionId.None? then
      var session := Session(st.nextSessionId, GenerateTitle(t.userMessage.value), t.now, t.now, Some(0));
      st.(sessions := st.sessions[session.sessionId := session], nextSessionId := st.nextSessionId + 1)
    else
      var session := st.sessions[t.sessionId.value].(updateTime := t.now);
      st.(sessions := st.sessions[session.sessionId := session])
  }

  /** One call of chatStream. Only the session check throws, and then before anything is written. */
  function RunTurn(st: Snapshot, t: TurnInput): (r: TurnOutcome)
    ensures r.result.Threw? ==> t.sessionId.Some? && r.after == st && r.result.message == NotFoundMessage(t.sessionId.value)
  {
    if IsBlankInput(t.userMessage) then TurnOutcome(st, Returned)
    else if !Resolves(st, t) then TurnOutcome(st, Threw(NotFoundMessage(t.sessionId.value)))
    else
      var sessionId := TurnSessionId(st, t);
      TurnOutcome(Streamed(SaveMessageTo(Opened(st, t), sessionId, User, t.userMessage.value), sessionId, t), Returned)
  }

  // ---------------------------------------------------------------------
  // Reference definitions used to state what a turn does
  // ---------------------------------------------------------------------

  /** The assistant reply is saved: the stream completed and the save did not throw. */
  predicate SavesReply(t: TurnInput)
  {
    t.outcome.Complete? && !t.faults.store.SaveFails?
  }

  /** The completion handler reaches the session update and it goes through. */
  predicate RefreshesAtFinish(t: TurnInput)
  {
    t.outcome.Complete? && t.faults.store.NoStoreFault?
  }

  /** The callbacks the completion handler fires. */
  function CompletionEvents(faults: Faults): seq<Event>
  {
    match faults.store
    case NoStoreFault =>
      [Done] + (if faults.done.Some? then [Error(FinishFailurePrefix + faults.done.value)] else [])
    case SaveFails(m) => [Error(FinishFailurePrefix + m)]
    case RefetchFails(m) => [Error(FinishFailurePrefix + m)]
    case UpdateFails(m) => [Error(FinishFailurePrefix + m)]
  }

  /** The callbacks fired once the stream has ended. */
  function TerminalEvents(t: TurnInput): seq<Event>
  {
    match t.outcome
    case Fail(message) => [Error(BackendFailurePrefix + message)]
    case Complete => CompletionEvents(t.faults)
  }

  /** The texts of the Chunk events, in order. */
  function ChunkTexts(events: seq<Event>): seq<string>
  {
    if events == [] then []
    else ChunkTexts(events[..|events| - 1]) + (if events[|events| - 1].Chunk? then [events[|events| - 1].text] else [])
  }

  /** The events of a stream whose every forward succeeded: one Chunk per delta. */
  function ChunkEvents(deltas: seq<string>): (r: seq<Event>)
    ensures |r| == |deltas|
    ensures forall i :: 0 <= i < |deltas| ==> r[i] == Chunk(deltas[i])
  {
    seq(|deltas|, i requires 0 <= i < |deltas| => Chunk(deltas[i]))
  }

  // ---------------------------------------------------------------------
  // Properties of the stream phase
  // ---------------------------------------------------------------------

  lemma {:induction false} ChunkTextsAppend(a: seq<Event>, b: seq<Event>)
    ensures ChunkTexts(a + b) == ChunkTexts(a) + ChunkTexts(b)
    decreases |b|
  {
    if b != [] {
      assert (a + b)[..|a + b| - 1] == a + b[..|b| - 1];
      ChunkTextsAppend(a, b[..|b| - 1]);
    } else {
      assert a + b == a;
    }
  }

  lemma ChunkTextsSingle(e: Event)
    ensures ChunkTexts([e]) == if e.Chunk? then [e.text] else []
  {
    assert [e][..0] == [];
  }

  lemma ChunkTextsOfForwardOne(chunk: string, k: nat, forward: map<nat, string>)
    ensures ChunkTexts(ForwardOne(chunk, k, forward)) == [chunk]
  {
    ChunkTextsSingle(Chunk(chunk));
    if k in forward {
      ChunkTextsAppend([Chunk(chunk)], [Error(ChunkFailurePrefix + forward[k])]);
      ChunkTextsSingle(Error(ChunkFailurePrefix + forward[k]));
    } else {
      assert ForwardOne(chunk, k, forward) == [Chunk(chunk)];
    }
  }

  /** Every delta is forwarded as a Chunk, in arrival order, even when a forward throws. */
  lemma {:induction false} ForwardedChunksAreDeltas(deltas: seq<string>, forward: map<nat, string>)
    ensures ChunkTexts(ForwardEvents(deltas, forward)) == deltas
  {
    if deltas != [] {
      var k := |deltas| - 1;
      var prev := ForwardEvents(deltas[..k], forward);
      var one := ForwardOne(deltas[k], k, forward);
      assert ForwardEvents(deltas, forward) == prev + one;
      ForwardedChunksAreDeltas(deltas[..k], forward);
      ChunkTextsAppend(prev, one);
      ChunkTextsOfForwardOne(deltas[k], k, forward);
      assert deltas[..k] + [deltas[k]] == deltas;
    }
  }

  /** Forwarding never fires Done, and fires an Error only for a delta whose forward threw. */
  lemma {:induction false} ForwardingIsNotTerminal(deltas: seq<string>, forward: map<nat, string>)
    ensures forall e :: e in ForwardEvents(deltas, forward) ==> !e.Done?
    ensures (forall k :: k in forward ==> k >= |deltas|) ==> ForwardEvents(deltas, forward) == ChunkEvents(deltas)
  {
    if deltas != [] {
      var k := |deltas| - 1;
      ForwardingIsNotTerminal(deltas[..k], forward);
      if forall j :: j in forward ==> j >= |deltas| {
        assert ChunkEvents(deltas) == ChunkEvents(deltas[..k]) + [Chunk(deltas[k])];
      }
    }
  }

  /** The accumulated reply is the concatenation of the chunks forwarded, in the order forwarded. */
  lemma AccumulationMatchesChunks(deltas: seq<string>, forward: map<nat, string>)
    ensures Concat(deltas) == Concat(ChunkTexts(ForwardEvents(deltas, forward)))
  {
    ForwardedChunksAreDeltas(deltas, forward);
  }

  lemma TerminalEventsHaveNoChunk(t: TurnInput)
    ensures ChunkTexts(TerminalEvents(t)) == []
  {
    var ev := TerminalEvents(t);
    if |ev| == 2 {
      ChunkTextsAppend([ev[0]], [ev[1]]);
      assert ev == [ev[0]] + [ev[1]];
      ChunkTextsSingle(ev[0]);
      ChunkTextsSingle(ev[1]);
    } else {
      assert ev == [ev[0]];
      ChunkTextsSingle(ev[0]);
    }
  }

  /** What the completion handler writes and fires. */
  lemma FinishEffect(st: Snapshot, sessionId: int, content: string, finishTime: int, faults: Faults)
    requires sessionId in st.sessions
    ensures var r := Finish(st, sessionId, content, finishTime, faults);
      && r.sessions == (if faults.store.NoStoreFault? then Refresh(st.sessions, sessionId, finishTime) else st.sessions)
      && r.nextSessionId == st.nextSessionId
      && r.messages == st.messages + (if faults.store.SaveFails? then [] else [Message(st.nextMessageId, sessionId, Assistant, content, Some(0))])
      && r.nextMessageId == st.nextMessageId + (if faults.store.SaveFails? then 0 else 1)
      && r.events == st.events + CompletionEvents(faults)
  {
  }

  /** What the stream phase writes and fires. */
  lemma StreamedEffect(st: Snapshot, sessionId: int, t: TurnInput)
    requires sessionId in st.sessions
    ensures var r := Streamed(st, sessionId, t);
      && r.sessions == (if RefreshesAtFinish(t) then Refresh(st.sessions, sessionId, t.finishTime) else st.sessions)
      && r.nextSessionId == st.nextSessionId
      && r.messages == st.messages + (if SavesReply(t) then [Message(st.nextMessageId, sessionId, Assistant, Concat(t.deltas), Some(0))] else [])
      && r.nextMessageId == st.nextMessageId + (if SavesReply(t) then 1 else 0)
      && r.events == st.events + ForwardEvents(t.deltas, t.faults.forward) + TerminalEvents(t)
  {
    var forwarded := st.(events := st.events + ForwardEvents(t.deltas, t.faults.forward));
    if t.outcome.Complete? {
      FinishEffect(forwarded, sessionId, Concat(t.deltas), t.finishTime, t.faults);
    }
  }

  /** What a resolved turn writes and fires, field by field. */
  lemma TurnEffect(st: Snapshot, t: TurnInput)
    requires Resolves(st, t)
    ensures var r := RunTurn(st, t); var o := Opened(st, t); var sid := TurnSessionId(st, t);
      && r.result == Returned
      && sid in o.sessions
      && r.after.sessions == (if RefreshesAtFinish(t) then Refresh(o.sessions, sid, t.finishTime) else o.sessions)
      && r.after.nextSessionId == o.nextSessionId
      && r.after.messages == st.messages + [Message(st.nextMessageId, sid, User, t.userMessage.value, Some(0))]
                             + (if SavesReply(t) then [Message(st.nextMessageId + 1, sid, Assistant, Concat(t.deltas), Some(0))] else [])
      && r.after.nextMessageId == st.nextMessageId + (if SavesReply(t) then 2 else 1)
      && r.after.events == st.events + ForwardEvents(t.deltas, t.faults.forward) + TerminalEvents(t)
  {
    var o := Opened(st, t);
    var sid := TurnSessionId(st, t);
    var m := SaveMessageTo(o, sid, User, t.userMessage.value);
    assert sid in o.sessions;
    assert RunTurn(st, t) == TurnOutcome(Streamed(m, sid, t), Returned);
    assert o.messages == st.messages && o.nextMessageId == st.nextMessageId && o.events == st.events;
    StreamedEffect(m, sid, t);
  }

  // ---------------------------------------------------------------------
  // Properties of a turn
  // ---------------------------------------------------------------------

  /** Null or blank text returns at once: no session, no message, no callback. */
  lemma BlankInputIsIgnored(st: Snapshot, t: TurnInput)
    requires IsBlankInput(t.userMessage)
    ensures RunTurn(st, t) == TurnOutcome(st, Returned)
  {
  }

  /** An unknown or deleted session id throws before anything is written. */
  lemma UnknownSessionThrows(st: Snapshot, t: TurnInput)
    requires !IsBlankInput(t.userMessage) && t.sessionId.Some?
    requires t.sessionId.value !in st.sessions || st.sessions[t.sessionId.value].deleted == Some(1)
    ensures RunTurn(st, t) == TurnOutcome(st, Threw(NotFoundMessage(t.sessionId.value)))
  {
  }

  /** The chunks of a forwarded stream followed by its terminal callbacks are the deltas. */
  lemma StreamChunksAreDeltas(t: TurnInput)
    ensures ChunkTexts(ForwardEvents(t.deltas, t.faults.forward) + TerminalEvents(t)) == t.deltas
  {
    ChunkTextsAppend(ForwardEvents(t.deltas, t.faults.forward), TerminalEvents(t));
    ForwardedChunksAreDeltas(t.deltas, t.faults.forward);
    TerminalEventsHaveNoChunk(t);
  }

  /** Fires exactly the forwarded chunks and then the terminal callbacks; the chunks are the deltas. */
  lemma TurnFiresEvents(st: Snapshot, t: TurnInput)
    requires Resolves(st, t)
    ensures var after := RunTurn(st, t).after;
      && after.events == st.events + ForwardEvents(t.deltas, t.faults.forward) + TerminalEvents(t)
      && ChunkTexts(after.events[|st.events|..]) == t.deltas
  {
    var after := RunTurn(st, t).after;
    TurnEffect(st, t);
    var fired := ForwardEvents(t.deltas, t.faults.forward) + TerminalEvents(t);
    assert after.events == st.events + fired;
    assert after.events[|st.events|..] == fired;
    StreamChunksAreDeltas(t);
  }

  /** With no session id, exactly one session is created, stamped with the start time and titled from the text. */
  lemma NewSessionCreated(st: Snapshot, t: TurnInput)
    requires ValidSnapshot(st) && !IsBlankInput(t.userMessage) && t.sessionId.None?
    ensures var after := RunTurn(st, t).after; var id := st.nextSessionId;
      && after.sessions.Keys == st.sessions.Keys + {id}
      && id !in st.sessions
      && after.nextSessionId == id + 1
      && (forall k :: k in st.sessions ==> after.sessions[k] == st.sessions[k])
      && after.sessions[id] == Session(id, GenerateTitle(t.userMessage.value), t.now,
                                       if RefreshesAtFinish(t) then t.finishTime else t.now, Some(0))
  {
    var after := RunTurn(st, t).after;
    var id := st.nextSessionId;
    var created := Session(id, GenerateTitle(t.userMessage.value), t.now, t.now, Some(0));
    TurnEffect(st, t);
    assert Opened(st, t).sessions == st.sessions[id := created];
    assert TurnSessionId(st, t) == id;
  }

  /** A live session id creates no session; that session gets the start time, and the finish time if the turn completes. */
  lemma ExistingSessionRefreshed(st: Snapshot, t: TurnInput)
    requires ValidSnapshot(st) && Resolves(st, t) && t.sessionId.Some?
    ensures var after := RunTurn(st, t).after; var id := t.sessionId.value;
      && after.sessions.Keys == st.sessions.Keys
      && after.nextSessionId == st.nextSessionId
      && (forall k :: k in st.sessions && k != id ==> after.sessions[k] == st.sessions[k])
      && after.sessions[id] == st.sessions[id].(updateTime := if RefreshesAtFinish(t) then t.finishTime else t.now)
  {
    var after := RunTurn(st, t).after;
    var id := t.sessionId.value;
    TurnEffect(st, t);
    assert TurnSessionId(st, t) == id;
    assert Opened(st, t).sessions == st.sessions[id := st.sessions[id].(updateTime := t.now)];
  }

  /**
   * The user's message is saved first, untrimmed, in the resolved session;
   * the assistant's reply, when saved, follows it and holds the concatenation
   * of every chunk fired. Nothing is rolled back: a failed turn keeps its user message.
   */
  lemma MessagesSaved(st: Snapshot, t: TurnInput)
    requires Resolves(st, t)
    ensures var after := RunTurn(st, t).after; var n := |st.messages|; var sid := TurnSessionId(st, t);
      && |after.messages| == n + (if SavesReply(t) then 2 else 1)
      && after.messages[..n] == st.messages
      && after.messages[n] == Message(st.nextMessageId, sid, User, t.userMessage.value, Some(0))
      && after.nextMessageId == st.nextMessageId + (if SavesReply(t) then 2 else 1)
      && (SavesReply(t) ==>
            after.messages[n + 1] == Message(st.nextMessageId + 1, sid, Assistant,
                                             Concat(ChunkTexts(after.events[|st.events|..])), Some(0)))
  {
    var after := RunTurn(st, t).after;
    TurnEffect(st, t);
    TurnFiresEvents(st, t);
    assert after.messages[..|st.messages|] == st.messages;
  }

  /** On a stream error only that error is fired at the end, and the partial reply is not saved. */
  lemma BackendFailureSavesNoReply(st: Snapshot, t: TurnInput)
    requires Resolves(st, t) && t.outcome.Fail?
    ensures var after := RunTurn(st, t).after;
      && |after.messages| == |st.messages| + 1
      && after.events == st.events + ForwardEvents(t.deltas, t.faults.forward) + [Error(BackendFailurePrefix + t.outcome.message)]
      && forall e :: e in after.events[|st.events|..] ==> !e.Done?
  {
    var after := RunTurn(st, t).after;
    TurnEffect(st, t);
    ForwardingIsNotTerminal(t.deltas, t.faults.forward);
    var fired := ForwardEvents(t.deltas, t.faults.forward) + [Error(BackendFailurePrefix + t.outcome.message)];
    assert after.events == st.events + fired;
    assert after.events[|st.events|..] == fired;
  }

  /** A turn where nothing throws fires one Chunk per delta and then a single Done. */
  lemma CleanTurnHasOneTerminal(st: Snapshot, t: TurnInput)
    requires Resolves(st, t)
    requires t.outcome.Complete? && t.faults == Faults(map[], NoStoreFault, None)
    ensures RunTurn(st, t).after.events == st.events + ChunkEvents(t.deltas) + [Done]
  {
    TurnEffect(st, t);
    ForwardingIsNotTerminal(t.deltas, t.faults.forward);
  }

  /** One terminal callback is not guaranteed: a failed forward fires Error, and the stream still ends in Done. */
  lemma ErrorThenDoneIsPossible()
    ensures var st := Snapshot(map[], 1, [], 1, []);
      var t := TurnInput(None, Some("Hello"), 0, 1, ["Hi"], Complete, Faults(map[0 := "closed"], NoStoreFault, None));
      RunTurn(st, t).after.events == [Chunk("Hi"), Error(ChunkFailurePrefix + "closed"), Done]
  {
    var st := Snapshot(map[], 1, [], 1, []);
    var t := TurnInput(None, Some("Hello"), 0, 1, ["Hi"], Complete, Faults(map[0 := "closed"], NoStoreFault, None));
    assert !IsBlank("Hello") by { assert !IsWhitespace("Hello"[0]); }
    TurnEffect(st, t);
    assert ["Hi"][..0] == [];
    assert ForwardEvents(["Hi"], t.faults.forward) == [Chunk("Hi"), Error(ChunkFailurePrefix + "closed")];
  }

  /** A turn keeps the store invariant. */
  lemma RunTurnPreservesValid(st: Snapshot, t: TurnInput)
    requires ValidSnapshot(st)
    ensures ValidSnapshot(RunTurn(st, t).after)
  {
    if Resolves(st, t) {
      var after := RunTurn(st, t).after;
      var sid := TurnSessionId(st, t);
      var n := |st.messages|;
      TurnEffect(st, t);
      if t.sessionId.None? { NewSessionCreated(st, t); } else { ExistingSessionRefreshed(st, t); }
      forall id | id in after.sessions
        ensures id < after.nextSessionId && after.sessions[id].sessionId == id
      {
        if id in st.sessions {
          assert id < st.nextSessionId;
        }
      }
      assert sid in after.sessions;
      forall i | 0 <= i < |after.messages|
        ensures after.messages[i].id < after.nextMessageId && after.messages[i].sessionId in after.sessions
      {
        if i < n {
          assert after.messages[i] == st.messages[i];
        } else {
          assert after.messages[i].sessionId == sid;
        }
      }
    }
  }

  /** If the clock does not run backwards, every session keeps creationTime <= updateTime. */
  lemma TimesStayOrdered(st: Snapshot, t: TurnInput)
    requires ValidSnapshot(st)
    requires forall id :: id in st.sessions ==> st.sessions[id].creationTime <= st.sessions[id].updateTime <= t.now
    requires t.now <= t.finishTime
    ensures var after := RunTurn(st, t).after;
      forall id :: id in after.sessions ==> after.sessions[id].creationTime <= after.sessions[id].updateTime
  {
    var after := RunTurn(st, t).after;
    if !Resolves(st, t) {
      assert after == st;
    } else if t.sessionId.None? {
      NewSessionCreated(st, t);
      forall id | id in after.sessions
        ensures after.sessions[id].creationTime <= after.sessions[id].updateTime
      {
        if id !in st.sessions {
          assert id == st.nextSessionId;
        }
      }
    } else {
      ExistingSessionRefreshed(st, t);
      forall id | id in after.sessions
        ensures after.sessions[id].creationTime <= after.sessions[id].updateTime
      {
        assert id in st.sessions;
      }
    }
  }

  /** A turn only appends to the callback log. */
  lemma EventsOnlyGrow(st: Snapshot, t: TurnInput)
    ensures var after := RunTurn(st, t).after;
      |st.events| <= |after.events| && after.events[..|st.events|] == st.events
  {
    if Resolves(st, t) {
      TurnEffect(st, t);
      var after := RunTurn(st, t).after;
      assert after.events[..|st.events|] == st.events;
    }
  }

  /** The callbacks one turn fires, in order. */
  function Fired(st: Snapshot, t: TurnInput): (fired: seq<Event>)
    ensures RunTurn(st, t).after.events == st.events + fired
  {
    EventsOnlyGrow(st, t);
    var after := RunTurn(st, t).after;
    assert after.events == after.events[..|st.events|] + after.events[|st.events|..];
    after.events[|st.events|..]
  }

  /**
   * The turn a transport starts for a request: the DTO's two fields, and
   * callbacks that never throw, so only the store calls can fail. The
   * WebSocket handler catches every exception of its sends; the SSE
   * handler catches only IOException, and the other exceptions its sends
   * or completes can throw are not modelled.
   */
  function TransportTurn(dto: ChatMessageDto, now: int, finishTime: int, deltas: seq<string>,
                         outcome: Outcome, store: StoreFault): TurnInput
  {
    TurnInput(dto.sessionId, dto.content, now, finishTime, deltas, outcome, Faults(map[], store, None))
  }

  // ---------------------------------------------------------------------
  // The service object
  // ---------------------------------------------------------------------

  /** ChatServiceImpl together with the in-memory session and message stores and the log of callbacks fired. */
  class ChatService {
    var sessions: map<int, Session>
    var nextSessionId: int
    var messages: seq<Message>
    var nextMessageId: int
    var events: seq<Event>

    function State(): Snapshot
      reads this
    {
      Snapshot(sessions, nextSessionId, messages, nextMessageId, events)
    }

    ghost predicate Valid()
      reads this
    {
      ValidSnapshot(State())
    }

    /** Empty stores whose auto-increment ids start at 1. */
    constructor ()
      ensures Valid() && State() == Snapshot(map[], 1, [], 1, [])
    {
      sessions, nextSessionId := map[], 1;
      messages, nextMessageId := [], 1;
      events := [];
    }

    /**
     * messageService.save. This and the handlers below are steps inside
     * ChatStream: they do not keep Valid() on their own (a row for an absent
     * session breaks it); ChatStream restores it, by RunTurnPreservesValid.
     */
    method SaveMessage(sessionId: int, role: Role, content: string)
      modifies this
      ensures State() == SaveMessageTo(old(State()), sessionId, role, content)
    {
      messages := messages + [Message(nextMessageId, sessionId, role, content, Some(0))];
      nextMessageId := nextMessageId + 1;
    }

    /** The onNext handler: append the delta, then forward it; a throwing forward fires an error (a step inside ChatStream, like SaveMessage). */
    method OnNext(full: string, chunk: string, k: nat, forward: map<nat, string>) returns (full': string)
      modifies this
      ensures full' == full + chunk
      ensures State() == old(State()).(events := old(events) + ForwardOne(chunk, k, forward))
    {
      full' := full + chunk;
      events := events + [Chunk(chunk)];
      if k in forward {
        events := events + [Error(ChunkFailurePrefix + forward[k])];
      }
    }

    /** The onError handler (a step inside ChatStream, like SaveMessage). */
    method OnError(message: string)
      modifies this
      ensures State() == Fire(old(State()), Error(BackendFailurePrefix + message))
    {
      events := events + [Error(BackendFailurePrefix + message)];
    }

    /** The onComplete handler (a step inside ChatStream, like SaveMessage). */
    method OnComplete(sessionId: int, full: string, finishTime: int, faults: Faults)
      modifies this
      ensures State() == Finish(old(State()), sessionId, full, finishTime, faults)
    {
      if faults.store.SaveFails? {
        events := events + [Error(FinishFailurePrefix + faults.store.message)];
        return;
      }
      SaveMessage(sessionId, Assistant, full);
      if faults.store.RefetchFails? {
        events := events + [Error(FinishFailurePrefix + faults.store.message)];
        return;
      }
      if sessionId in sessions {
        var updateSession := sessions[sessionId].(updateTime := finishTime);
        if faults.store.UpdateFails? {
          events := events + [Error(FinishFailurePrefix + faults.store.message)];
          return;
        }
        sessions := sessions[sessionId := updateSession];
      }
      events := events + [Done];
      if faults.done.Some? {
        events := events + [Error(FinishFailurePrefix + faults.done.value)];
      }
    }

    /** The subscription to the model's stream: every delta through onNext, then onError or onComplete (a step inside ChatStream, like SaveMessage). */
    method Subscribe(currentSessionId: int, t: TurnInput)
      modifies this
      ensures State() == Streamed(old(State()), currentSessionId, t)
    {
      ghost var subscribed := State();
      var full := "";
      var i := 0;
      while i < |t.deltas|
        invariant 0 <= i <= |t.deltas|
        invariant full == Concat(t.deltas[..i])
        invariant State() == subscribed.(events := subscribed.events + ForwardEvents(t.deltas[..i], t.faults.forward))
      {
        assert t.deltas[..i + 1][..i] == t.deltas[..i];
        full := OnNext(full, t.deltas[i], i, t.faults.forward);
        i := i + 1;
      }
      assert t.deltas[..i] == t.deltas;

      match t.outcome {
        case Fail(message) => OnError(message);
        case Complete => OnComplete(currentSessionId, full, t.finishTime, t.faults);
      }
    }

    /** chatStream: resolve the session, save the user message, then run the model's stream to its end. */
    method ChatStream(sessionId: Option<int>, userMessage: Option<string>, now: int, finishTime: int,
                      deltas: seq<string>, outcome: Outcome, faults: Faults) returns (r: CallResult)
      requires Valid()
      modifies this
      ensures Valid()
      ensures TurnOutcome(State(), r)
           == RunTurn(old(State()), TurnInput(sessionId, userMessage, now, finishTime, deltas, outcome, faults))
    {
      var t := TurnInput(sessionId, userMessage, now, finishTime, deltas, outcome, faults);
      ghost var st := State();
      RunTurnPreservesValid(st, t);
      if userMessage.None? || IsBlank(userMessage.value) {
        return Returned;
      }
      var text := userMessage.value;
      var currentSessionId: int;
      if sessionId.None? {
        var session := Session(nextSessionId, GenerateTitle(text), now, now, Some(0));
        sessions := sessions[session.sessionId := session];
        nextSessionId := nextSessionId + 1;
        currentSessionId := session.sessionId;
      } else {
        var id := sessionId.value;
        if id !in sessions || sessions[id].deleted == Some(1) {
          return Threw(NotFoundMessage(id));
        }
        var session := sessions[id].(updateTime := now);
        sessions := sessions[session.sessionId := session];
        currentSessionId := session.sessionId;
      }
      assert Resolves(st, t);
      ghost var resolved := Opened(st, t);
      assert State() == resolved && currentSessionId == TurnSessionId(st, t);
      assert RunTurn(st, t) == TurnOutcome(Streamed(SaveMessageTo(resolved, currentSessionId, User, text), currentSessionId, t), Returned);

      SaveMessage(currentSessionId, User, text);
      Subscribe(currentSessionId, t);
      r := Returned;
    }
  }
}
