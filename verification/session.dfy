/**
  The per-connection loop of `websocket_endpoint` and the post-session step
  it runs on disconnect, written as the sequence of actions one connection
  performs. The event log and the chunks sent to the client are projections
  of that sequence. The client's messages, the model's token streams and the
  store's answers are inputs: a connection is a finite list of turns followed
  by a disconnect.
 */
module Session {
  import opened Options
  import opened Text
  import opened Rows
  import Database
  import Transcript
  import Inventory
  import ToolDispatch

  const DemoUser := "demo_user"
  /** The text put before the exception's message when a reply fails. */
  function ErrorPrefix(): string { "Error generating response: " }
  const RootMessage := "Real-time AI Backend is running"

  /** The liveness payload served at `/`. */
  function Root(): (r: map<string, string>)
    ensures r.Keys == {"message"}
    ensures r["message"] == RootMessage
  {
    map["message" := RootMessage]
  }

  datatype EventType = UserMessage | AiMessage | SystemEvent {
    /** The `event_type` text stored for this kind of event. */
    function Name(): string {
      match this
      case UserMessage => "user_message"
      case AiMessage => "ai_message"
      case SystemEvent => "system_event"
    }
  }

  /** One `log_event` call: its event type and content (metadata is always left at its default). */
  datatype Event = Event(kind: EventType, content: string)

  /**
    What iterating `stream_llm_response(data)` produced: the tokens yielded,
    then either a normal end or an exception whose `str(e)` is given.
   */
  datatype Stream = Stream(tokens: seq<string>, failure: Option<string>)

  /** One received message and the model's stream for it. */
  datatype Turn = Turn(message: string, reply: Stream)

  datatype Action =
    | CreateSession(sessionId: string, userId: string)
    | Receive(text: string)
    | LogEvent(event: Event)
    | CallModel(message: string)
    | SendText(chunk: string)
    | Disconnect
    | FetchHistory(historyOf: string)
    | Summarize(summary: string)
    | UpdateSession(updated: string, patch: Row)

  /** The store and clock as the post-session step finds them. */
  datatype Backend = Backend(
    history: seq<Row>,
    sessionRow: Row,
    endMicros: int,
    summarize: string -> string,
    clock: Database.Clock)

  /** The store returns rows of the shapes it was written with. */
  predicate Readable(backend: Backend) {
    Transcript.AllLogRows(backend.history) && Database.HasStartTimeColumn(backend.sessionRow)
  }

  /** The message sent and logged for a failed reply, given `str(e)`. */
  function ErrorText(e: string): string {
    ErrorPrefix() + e
  }

  /** The event that closes a turn: the relayed text on success, the error text on failure. */
  function Outcome(t: Turn): Event {
    match t.reply.failure
    case None => Event(AiMessage, Concat(t.reply.tokens))
    case Some(e) => Event(SystemEvent, ErrorText(e))
  }

  /** One `send_text` per chunk, in order. */
  function Sends(chunks: seq<string>): seq<Action> {
    seq(|chunks|, i requires 0 <= i < |chunks| => SendText(chunks[i]))
  }

  /** Receiving a message: it is logged as a `user_message` before the model is called. */
  function Opening(message: string): seq<Action> {
    [Receive(message), LogEvent(Event(UserMessage, message)), CallModel(message)]
  }

  /** Closing a turn: log the relayed text, or send and log the error text. */
  function Closing(t: Turn): seq<Action> {
    match t.reply.failure
    case None => [LogEvent(Event(AiMessage, Concat(t.reply.tokens)))]
    case Some(e) => [SendText(ErrorText(e)), LogEvent(Event(SystemEvent, ErrorText(e)))]
  }

  /** The actions of one iteration of the receive loop. */
  function TurnTrace(t: Turn): seq<Action> {
    Opening(t.message) + Sends(t.reply.tokens) + Closing(t)
  }

  /** The receive loop over the given turns, one iteration after another. */
  function TurnsTrace(turns: seq<Turn>): seq<Action>
    decreases |turns|
  {
    if turns == [] then [] else TurnsTrace(turns[..|turns| - 1]) + TurnTrace(turns[|turns| - 1])
  }

  /** `process_post_session`: fetch the history, summarise it, write the summary back. */
  function PostSession(sessionId: string, backend: Backend): (r: seq<Action>)
    requires Readable(backend)
    ensures |r| == 3 && r[0] == FetchHistory(sessionId) && r[1].Summarize? && r[2].UpdateSession?
    ensures backend.history == [] ==> r[1].summary == Transcript.NoInteraction
    ensures backend.history != [] ==> r[1].summary == backend.summarize(Transcript.Render(backend.history))
    ensures r[2].updated == sessionId
    ensures r[2].patch.Keys == {"summary", "end_time", "duration_seconds"}
    ensures r[2].patch["summary"] == Str(r[1].summary)
    ensures r[2].patch["end_time"] == Str(backend.clock.isoformat(backend.endMicros))
    ensures r[2].patch == Database.UpdateSessionSummary(backend.sessionRow, r[1].summary, backend.endMicros, backend.clock)
  {
    var summary := Transcript.GenerateSummary(backend.history, backend.summarize);
    [ FetchHistory(sessionId),
      Summarize(summary),
      UpdateSession(sessionId,
        Database.UpdateSessionSummary(backend.sessionRow, summary, backend.endMicros, backend.clock)) ]
  }

  /** Everything one connection does, from accept to the end of post-session processing. */
  function SessionTrace(sessionId: string, turns: seq<Turn>, backend: Backend): seq<Action>
    requires Readable(backend)
  {
    [CreateSession(sessionId, DemoUser)] + TurnsTrace(turns) + [Disconnect] + PostSession(sessionId, backend)
  }

  /** `websocket_endpoint`: create the session, run the receive loop until the client leaves, then post-process. */
  method WebsocketEndpoint(sessionId: string, turns: seq<Turn>, backend: Backend) returns (trace: seq<Action>)
    requires Readable(backend)
    ensures trace == SessionTrace(sessionId, turns, backend)
  {
    trace := [CreateSession(sessionId, DemoUser)];
    var received: seq<Action> := [];
    var k := 0;
    while k < |turns|
      invariant 0 <= k <= |turns|
      invariant received == TurnsTrace(turns[..k])
    {
      var actions := HandleMessage(turns[k]);
      assert turns[..k + 1][..k] == turns[..k];
      received := received + actions;
      k := k + 1;
    }
    assert turns[..k] == turns;
    trace := trace + received + [Disconnect] + PostSession(sessionId, backend);
  }

  /** One iteration of the receive loop: log, relay each token as it arrives while accumulating the reply, then close the turn. */
  method HandleMessage(turn: Turn) returns (actions: seq<Action>)
    ensures actions == TurnTrace(turn)
  {
    var tokens := turn.reply.tokens;
    actions := [Receive(turn.message), LogEvent(Event(UserMessage, turn.message)), CallModel(turn.message)];
    ghost var beforeStream := actions;
    var fullAiResponse := "";
    var i := 0;
    while i < |tokens|
      invariant 0 <= i <= |tokens|
      invariant actions == beforeStream + Sends(tokens[..i])
      invariant fullAiResponse == Concat(tokens[..i])
    {
      var token := tokens[i];
      actions := actions + [SendText(token)];
      fullAiResponse := fullAiResponse + token;
      assert tokens[..i + 1][..i] == tokens[..i];
      assert Sends(tokens[..i + 1]) == Sends(tokens[..i]) + [SendText(token)];
      i := i + 1;
    }
    assert tokens[..i] == tokens;
    match turn.reply.failure {
      case None =>
        actions := actions + [LogEvent(Event(AiMessage, fullAiResponse))];
      case Some(e) =>
        var errorMsg := ErrorPrefix() + e;
        actions := actions + [SendText(errorMsg), LogEvent(Event(SystemEvent, errorMsg))];
    }
  }

  // ---------------------------------------------------------------------
  // Projections: the event log and the outbound chunks

  /** The payloads `select` picks out of a trace, in order. */
  function Pick<T>(trace: seq<Action>, select: Action -> Option<T>): seq<T> {
    if trace == [] then []
    else
      var last := select(trace[|trace| - 1]);
      Pick(trace[..|trace| - 1], select) + (if last.Some? then [last.value] else [])
  }

  lemma {:induction false} PickAppend<T>(a: seq<Action>, b: seq<Action>, select: Action -> Option<T>)
    ensures Pick(a + b, select) == Pick(a, select) + Pick(b, select)
  {
    if b == [] {
      assert a + b == a;
    } else {
      var init := b[..|b| - 1];
      PickAppend(a, init, select);
      assert (a + b)[..|a + b| - 1] == a + init;
    }
  }

  lemma {:induction false} PickNone<T>(trace: seq<Action>, select: Action -> Option<T>)
    requires forall i :: 0 <= i < |trace| ==> select(trace[i]).None?
    ensures Pick(trace, select) == []
  {
    if trace != [] {
      PickNone(trace[..|trace| - 1], select);
    }
  }

  lemma PickSingle<T>(a: Action, select: Action -> Option<T>)
    ensures Pick([a], select) == if select(a).Some? then [select(a).value] else []
  {
    assert [a][..0] == [];
  }

  /** The three actions that open a turn log the message and send nothing. */
  lemma OpeningProjections(m: string)
    ensures LogOf(Opening(m)) == [Event(UserMessage, m)]
    ensures SentOf(Opening(m)) == []
  {
    var r, l, c := Receive(m), LogEvent(Event(UserMessage, m)), CallModel(m);
    assert Opening(m) == [r] + [l] + [c];
    PickSingle(r, LoggedEvent);
    PickSingle(l, LoggedEvent);
    PickSingle(c, LoggedEvent);
    PickThree([r], [l], [c], LoggedEvent);
    PickNone(Opening(m), SentChunk);
  }

  /** The actions that close a turn log its outcome and send the error text, if any. */
  lemma ClosingProjections(t: Turn)
    ensures LogOf(Closing(t)) == [Outcome(t)]
    ensures SentOf(Closing(t)) == if t.reply.failure.Some? then [ErrorText(t.reply.failure.value)] else []
  {
    if t.reply.failure.None? {
      var done := LogEvent(Event(AiMessage, Concat(t.reply.tokens)));
      PickSingle(done, LoggedEvent);
      PickSingle(done, SentChunk);
    } else {
      var e := ErrorText(t.reply.failure.value);
      var send, log := SendText(e), LogEvent(Event(SystemEvent, e));
      assert Closing(t) == [send] + [log];
      PickSingle(send, LoggedEvent);
      PickSingle(log, LoggedEvent);
      PickSingle(send, SentChunk);
      PickSingle(log, SentChunk);
      PickAppend([send], [log], LoggedEvent);
      PickAppend([send], [log], SentChunk);
    }
  }

  function LoggedEvent(a: Action): Option<Event> {
    if a.LogEvent? then Some(a.event) else None
  }

  function SentChunk(a: Action): Option<string> {
    if a.SendText? then Some(a.chunk) else None
  }

  /** The events appended to `event_logs`, in order. */
  function LogOf(trace: seq<Action>): seq<Event> {
    Pick(trace, LoggedEvent)
  }

  /** The chunks sent to the client, in order. */
  function SentOf(trace: seq<Action>): seq<string> {
    Pick(trace, SentChunk)
  }

  lemma {:induction false} SendsProjections(chunks: seq<string>)
    ensures SentOf(Sends(chunks)) == chunks
    ensures LogOf(Sends(chunks)) == []
  {
    if chunks != [] {
      var init := chunks[..|chunks| - 1];
      assert Sends(chunks)[..|chunks| - 1] == Sends(init);
      SendsProjections(init);
    }
  }

  /** Chunks the client receives in one turn: the tokens, then the error text if the stream failed. */
  function TurnChunks(t: Turn): seq<string> {
    t.reply.tokens + match t.reply.failure
      case None => []
      case Some(e) => [ErrorText(e)]
  }

  /**
    One turn logs the user's message and then exactly one closing event, and
    sends the tokens in the order yielded, followed by the error text when
    the stream failed; tokens already sent stay sent.
   */
  lemma TurnProjections(t: Turn)
    ensures LogOf(TurnTrace(t)) == [Event(UserMessage, t.message), Outcome(t)]
    ensures SentOf(TurnTrace(t)) == TurnChunks(t)
  {
    SendsProjections(t.reply.tokens);
    OpeningProjections(t.message);
    ClosingProjections(t);
    PickThree(Opening(t.message), Sends(t.reply.tokens), Closing(t), LoggedEvent);
    PickThree(Opening(t.message), Sends(t.reply.tokens), Closing(t), SentChunk);
  }

  /** Projecting three pieces of a trace projects each in turn. */
  lemma PickThree<T>(a: seq<Action>, b: seq<Action>, c: seq<Action>, select: Action -> Option<T>)
    ensures Pick(a + b + c, select) == Pick(a, select) + Pick(b, select) + Pick(c, select)
  {
    PickAppend(a, b, select);
    PickAppend(a + b, c, select);
  }

  /**
    On success the logged `ai_message` holds exactly the text the client was
    sent in that turn; on failure the client's last chunk and the logged
    `system_event` carry the same error text and no `ai_message` is logged.
   */
  lemma TurnRoundTrip(t: Turn)
    ensures t.reply.failure.None? ==>
      LogOf(TurnTrace(t)) == [Event(UserMessage, t.message), Event(AiMessage, Concat(SentOf(TurnTrace(t))))]
    ensures t.reply.failure.Some? ==>
      var errorMsg := ErrorPrefix() + t.reply.failure.value;
      && SentOf(TurnTrace(t)) == t.reply.tokens + [errorMsg]
      && LogOf(TurnTrace(t)) == [Event(UserMessage, t.message), Event(SystemEvent, errorMsg)]
    ensures forall j :: 0 <= j < |LogOf(TurnTrace(t))| ==>
      (LogOf(TurnTrace(t))[j].kind == AiMessage <==> j == 1 && t.reply.failure.None?)
  {
    TurnProjections(t);
    if t.reply.failure.None? {
      assert TurnChunks(t) == t.reply.tokens;
    }
  }

  // ---------------------------------------------------------------------
  // Properties of a whole connection

  /** The log holds one (user message, closing event) pair per turn, in turn order. */
  predicate PairedLog(log: seq<Event>, turns: seq<Turn>) {
    && |log| == 2 * |turns|
    && forall i :: 0 <= i < |turns| ==>
         log[2 * i] == Event(UserMessage, turns[i].message) && log[2 * i + 1] == Outcome(turns[i])
  }

  lemma {:induction false} TurnsLog(turns: seq<Turn>)
    ensures PairedLog(LogOf(TurnsTrace(turns)), turns)
  {
    if turns != [] {
      var init := turns[..|turns| - 1];
      var last := turns[|turns| - 1];
      TurnsLog(init);
      TurnProjections(last);
      PickAppend(TurnsTrace(init), TurnTrace(last), LoggedEvent);
      assert turns == init + [last];
      PairedLogSnoc(LogOf(TurnsTrace(init)), init, last);
    }
  }

  /** A paired log extended by one more turn's pair stays paired. */
  lemma PairedLogSnoc(log: seq<Event>, turns: seq<Turn>, t: Turn)
    requires PairedLog(log, turns)
    ensures PairedLog(log + [Event(UserMessage, t.message), Outcome(t)], turns + [t])
  {
    var log', turns' := log + [Event(UserMessage, t.message), Outcome(t)], turns + [t];
    forall i | 0 <= i < |turns'|
      ensures log'[2 * i] == Event(UserMessage, turns'[i].message) && log'[2 * i + 1] == Outcome(turns'[i])
    {
      if i < |turns| {
        assert turns'[i] == turns[i];
      }
    }
  }

  lemma {:induction false} TurnsChunks(turns: seq<Turn>)
    ensures SentOf(TurnsTrace(turns)) == AllChunks(turns)
  {
    if turns != [] {
      var init := turns[..|turns| - 1];
      TurnsChunks(init);
      TurnProjections(turns[|turns| - 1]);
      PickAppend(TurnsTrace(init), TurnTrace(turns[|turns| - 1]), SentChunk);
    }
  }

  /** Every chunk of every turn, turn after turn. */
  function AllChunks(turns: seq<Turn>): seq<string>
    decreases |turns|
  {
    if turns == [] then [] else AllChunks(turns[..|turns| - 1]) + TurnChunks(turns[|turns| - 1])
  }

  /**
    The event log of a connection alternates a `user_message` with the event
    closing that turn, whether or not the turn failed, so it never starts
    with an `ai_message`; the post-session step logs nothing.
   */
  lemma SessionLog(sessionId: string, turns: seq<Turn>, backend: Backend)
    requires Readable(backend)
    ensures PairedLog(LogOf(SessionTrace(sessionId, turns, backend)), turns)
    ensures SentOf(SessionTrace(sessionId, turns, backend)) == AllChunks(turns)
  {
    var create := CreateSession(sessionId, DemoUser);
    var rest := [Disconnect] + PostSession(sessionId, backend);
    assert SessionTrace(sessionId, turns, backend) == [create] + TurnsTrace(turns) + rest;
    assert forall i :: 0 <= i < |rest| ==> !rest[i].LogEvent? && !rest[i].SendText?;
    TurnsLog(turns);
    PickFramed(create, TurnsTrace(turns), rest, LoggedEvent);
    TurnsChunks(turns);
    PickFramed(create, TurnsTrace(turns), rest, SentChunk);
  }

  /** An action and a suffix that a projection skips contribute nothing to it. */
  lemma PickFramed<T>(first: Action, middle: seq<Action>, rest: seq<Action>, select: Action -> Option<T>)
    requires select(first).None?
    requires forall i :: 0 <= i < |rest| ==> select(rest[i]).None?
    ensures Pick([first] + middle + rest, select) == Pick(middle, select)
  {
    PickNone(rest, select);
    PickSingle(first, select);
    PickAppend([first], middle, select);
    PickAppend([first] + middle, rest, select);
  }

  /** Actions that only happen inside the receive loop. */
  predicate IsTurnAction(a: Action) {
    a.Receive? || a.LogEvent? || a.CallModel? || a.SendText?
  }

  /** Each received message is logged as a `user_message` and only then handed to the model. */
  predicate LogsBeforeStreaming(trace: seq<Action>) {
    forall j :: 0 <= j < |trace| && trace[j].Receive? ==>
      && j + 2 < |trace|
      && trace[j + 1] == LogEvent(Event(UserMessage, trace[j].text))
      && trace[j + 2] == CallModel(trace[j].text)
  }

  lemma LogsBeforeStreamingAppend(a: seq<Action>, b: seq<Action>)
    requires LogsBeforeStreaming(a) && LogsBeforeStreaming(b)
    ensures LogsBeforeStreaming(a + b)
  {
    var ab := a + b;
    forall j | 0 <= j < |ab| && ab[j].Receive?
      ensures j + 2 < |ab|
      ensures ab[j + 1] == LogEvent(Event(UserMessage, ab[j].text)) && ab[j + 2] == CallModel(ab[j].text)
    {
      if j < |a| {
        assert a[j].Receive?;
      } else {
        assert b[j - |a|].Receive?;
      }
    }
  }

  lemma {:induction false} TurnsShape(turns: seq<Turn>)
    ensures forall a :: a in TurnsTrace(turns) ==> IsTurnAction(a)
    ensures LogsBeforeStreaming(TurnsTrace(turns))
  {
    if turns != [] {
      var init := turns[..|turns| - 1];
      TurnsShape(init);
      TurnShape(turns[|turns| - 1]);
      LogsBeforeStreamingAppend(TurnsTrace(init), TurnTrace(turns[|turns| - 1]));
    }
  }

  /** One turn is made of loop actions only, and its one `Receive` is followed by the log and the model call. */
  lemma TurnShape(t: Turn)
    ensures forall a :: a in TurnTrace(t) ==> IsTurnAction(a)
    ensures LogsBeforeStreaming(TurnTrace(t))
  {
    var tr := TurnTrace(t);
    var tail := Sends(t.reply.tokens) + Closing(t);
    assert tr == Opening(t.message) + tail;
    assert forall j :: 0 <= j < |tail| ==> !tail[j].Receive? && IsTurnAction(tail[j]);
    assert forall j :: 3 <= j < |tr| ==> tr[j] == tail[j - 3];
  }

  /**
    A connection creates its session once, as its very first action, for
    the demo user; every received message is logged before the model is
    asked; and after the disconnect, which ends the receive loop, the history
    is fetched, then summarised, then written back, in that order and as the
    last actions of the connection.
   */
  lemma SessionOrdering(sessionId: string, turns: seq<Turn>, backend: Backend)
    requires Readable(backend)
    ensures var trace := SessionTrace(sessionId, turns, backend);
      var n := |trace|;
      var summary := Transcript.GenerateSummary(backend.history, backend.summarize);
      && n >= 5
      && trace[0] == CreateSession(sessionId, DemoUser)
      && (forall j :: 0 < j < n - 4 ==> IsTurnAction(trace[j]))
      && LogsBeforeStreaming(trace)
      && trace[n - 4] == Disconnect
      && trace[n - 3] == FetchHistory(sessionId)
      && trace[n - 2] == Summarize(summary)
      && trace[n - 1].UpdateSession? && trace[n - 1].updated == sessionId
      && trace[n - 1].patch["summary"] == Str(summary)
  {
    var create := [CreateSession(sessionId, DemoUser)];
    var rest := [Disconnect] + PostSession(sessionId, backend);
    var trace := SessionTrace(sessionId, turns, backend);
    TurnsShape(turns);
    assert trace == create + TurnsTrace(turns) + rest;
    forall j | 0 < j < |trace| - 4
      ensures IsTurnAction(trace[j])
    {
      assert trace[j] == TurnsTrace(turns)[j - 1];
    }
    assert LogsBeforeStreaming(create);
    assert LogsBeforeStreaming(rest);
    LogsBeforeStreamingAppend(create, TurnsTrace(turns));
    LogsBeforeStreamingAppend(create + TurnsTrace(turns), rest);
  }

  /** The rows `log_event` wrote for a log, whatever their `created_at` stamps. */
  predicate StoredAs(history: seq<Row>, sessionId: string, log: seq<Event>, stamps: seq<string>) {
    && |history| == |log| == |stamps|
    && forall i :: 0 <= i < |log| ==>
         history[i] == Database.LogEventRecord(sessionId, log[i].kind.Name(), log[i].content, None, stamps[i])
  }

  lemma EventRowRendering(sessionId: string, e: Event, stamp: string)
    ensures var row := Database.LogEventRecord(sessionId, e.kind.Name(), e.content, None, stamp);
      && Transcript.IsLogRow(row)
      && Transcript.LineText(row) == (if e.kind == UserMessage then "User" else "AI") + ": " + e.content
  {
    var row := Database.LogEventRecord(sessionId, e.kind.Name(), e.content, None, stamp);
    assert "user_message"[0] == 'u' && "ai_message"[0] == 'a' && "system_event"[0] == 's';
    assert e.kind == UserMessage <==> row["event_type"] == Str(Transcript.UserMessageType);
  }

  /** Each stored row renders as its event's role and content. */
  lemma StoredRowsRender(sessionId: string, log: seq<Event>, history: seq<Row>, stamps: seq<string>)
    requires StoredAs(history, sessionId, log, stamps)
    ensures Transcript.AllLogRows(history)
    ensures forall i :: 0 <= i < |history| ==>
      Transcript.LineText(history[i]) == (if log[i].kind == UserMessage then "User" else "AI") + ": " + log[i].content
  {
    forall i | 0 <= i < |history|
      ensures Transcript.IsLogRow(history[i])
      ensures Transcript.LineText(history[i]) == (if log[i].kind == UserMessage then "User" else "AI") + ": " + log[i].content
    {
      EventRowRendering(sessionId, log[i], stamps[i]);
    }
  }

  /** Rows that render as a paired log's events give two lines per turn. */
  lemma PairedLines(turns: seq<Turn>, log: seq<Event>, history: seq<Row>)
    requires PairedLog(log, turns)
    requires |history| == |log| && Transcript.AllLogRows(history)
    requires forall i :: 0 <= i < |history| ==>
      Transcript.LineText(history[i]) == (if log[i].kind == UserMessage then "User" else "AI") + ": " + log[i].content
    ensures |Transcript.Lines(history)| == 2 * |turns|
    ensures forall i :: 0 <= i < |turns| ==>
      && Transcript.Lines(history)[2 * i] == "User" + ": " + turns[i].message
      && Transcript.Lines(history)[2 * i + 1] == "AI" + ": " + Outcome(turns[i]).content
  {
    var lines := Transcript.Lines(history);
    forall i | 0 <= i < |turns|
      ensures lines[2 * i] == "User" + ": " + turns[i].message
      ensures lines[2 * i + 1] == "AI" + ": " + Outcome(turns[i]).content
    {
      assert log[2 * i] == Event(UserMessage, turns[i].message);
      assert log[2 * i + 1].kind != UserMessage;
    }
  }

  /**
    When the store returns rows written for a paired log (as every
    connection's log is, by `SessionLog`), the transcript handed to the
    summariser has one line per event, alternating the user's message and
    the closing event of its turn; a failed turn's `system_event` is
    rendered with the AI role.
   */
  lemma HistoryTranscript(sessionId: string, turns: seq<Turn>, log: seq<Event>, history: seq<Row>, stamps: seq<string>)
    requires PairedLog(log, turns)
    requires StoredAs(history, sessionId, log, stamps)
    ensures Transcript.AllLogRows(history)
    ensures |Transcript.Lines(history)| == 2 * |turns|
    ensures forall i :: 0 <= i < |turns| ==>
      && Transcript.Lines(history)[2 * i] == "User" + ": " + turns[i].message
      && Transcript.Lines(history)[2 * i + 1] == "AI" + ": " + Outcome(turns[i]).content
    ensures Transcript.Render(history) == Concat(Transcript.Terminated(Transcript.Lines(history)))
  {
    StoredRowsRender(sessionId, log, history, stamps);
    PairedLines(turns, log, history);
    Transcript.RenderIsConcat(history);
  }

  /** A connection that disconnects at once stores the fixed no-interaction summary. */
  lemma EmptySessionSummary(sessionId: string, backend: Backend)
    requires Readable(backend)
    requires backend.history == []
    ensures SessionTrace(sessionId, [], backend) ==
      [ CreateSession(sessionId, DemoUser), Disconnect, FetchHistory(sessionId),
        Summarize(Transcript.NoInteraction),
        UpdateSession(sessionId,
          Database.UpdateSessionSummary(backend.sessionRow, Transcript.NoInteraction, backend.endMicros, backend.clock)) ]
  {
  }

  /** "hello" answered with "Hi" and " there": both are relayed in order and "Hi there" is logged. */
  lemma HelloScenario()
    ensures var t := Turn("hello", Stream(["Hi", " there"], None));
      && SentOf(TurnTrace(t)) == ["Hi", " there"]
      && LogOf(TurnTrace(t)) == [Event(UserMessage, "hello"), Event(AiMessage, "Hi there")]
  {
    var t := Turn("hello", Stream(["Hi", " there"], None));
    TurnProjections(t);
    assert TurnChunks(t) == ["Hi", " there"];
    assert Concat(["Hi", " there"]) == "Hi there" by {
      assert ["Hi", " there"][1..] == [" there"];
      assert [" there"][1..] == [];
    }
  }

  /**
    A turn that relays a tool-using reply logs, as its `ai_message`, the
    first round's text followed by the second round's text when one was
    requested; the tool call itself is not logged.
   */
  lemma ToolTurnLogged(message: string, firstRound: seq<ToolDispatch.Chunk>,
                       secondRound: seq<ToolDispatch.ToolResponse> -> seq<string>)
    ensures var reply := ToolDispatch.StreamLlmResponse(firstRound, secondRound);
      var t := Turn(message, Stream(reply.yielded, None));
      LogOf(TurnTrace(t)) == [
        Event(UserMessage, message),
        Event(AiMessage,
          Concat(ToolDispatch.TextsOf(ToolDispatch.PartsOf(firstRound)))
          + (if reply.followUp.Some? then Concat(secondRound(reply.followUp.value)) else ""))]
  {
    var reply := ToolDispatch.StreamLlmResponse(firstRound, secondRound);
    TurnProjections(Turn(message, Stream(reply.yielded, None)));
  }

  /**
    The model asks for `check_inventory("mouse")`; the tool reports 120
    available; the second round says "We have 120 in stock.", which is what
    the client sees and what is logged.
   */
  lemma MouseToolScenario()
    ensures var call := ToolDispatch.FunctionCall("check_inventory", "mouse");
      var firstRound := [[ToolDispatch.Part("", Some(call))]];
      var secondRound := (rs: seq<ToolDispatch.ToolResponse>) => ["We have 120 in stock."];
      var reply := ToolDispatch.StreamLlmResponse(firstRound, secondRound);
      && reply.followUp == Some([ToolDispatch.ToolResponse("check_inventory", Inventory.StockReport("mouse", 120, "Available"))])
      && reply.yielded == ["We have 120 in stock."]
      && LogOf(TurnTrace(Turn("Do you have mice?", Stream(reply.yielded, None)))) ==
         [Event(UserMessage, "Do you have mice?"), Event(AiMessage, "We have 120 in stock.")]
  {
    var call := ToolDispatch.FunctionCall("check_inventory", "mouse");
    var firstRound := [[ToolDispatch.Part("", Some(call))]];
    var secondRound := (rs: seq<ToolDispatch.ToolResponse>) => ["We have 120 in stock."];
    MouseToolReply(call, firstRound, secondRound);
    var answer := "We have 120 in stock.";
    var t := Turn("Do you have mice?", Stream([answer], None));
    TurnProjections(t);
    ConcatSingle(answer);
  }

  /** The reply half of `MouseToolScenario`: one known call, answered, and the second round relayed. */
  lemma MouseToolReply(call: ToolDispatch.FunctionCall, firstRound: seq<ToolDispatch.Chunk>,
                       secondRound: seq<ToolDispatch.ToolResponse> -> seq<string>)
    requires call == ToolDispatch.FunctionCall("check_inventory", "mouse")
    requires firstRound == [[ToolDispatch.Part("", Some(call))]]
    requires forall rs :: secondRound(rs) == ["We have 120 in stock."]
    ensures ToolDispatch.StreamLlmResponse(firstRound, secondRound) ==
      ToolDispatch.Reply(["We have 120 in stock."],
        Some([ToolDispatch.ToolResponse("check_inventory", Inventory.StockReport("mouse", 120, "Available"))]))
  {
    MouseCallAnswered(call);
    MouseFirstRound(call, firstRound);
    ToolDispatch.YieldedSingle("We have 120 in stock.");
  }

  lemma MouseCallAnswered(call: ToolDispatch.FunctionCall)
    requires call == ToolDispatch.FunctionCall("check_inventory", "mouse")
    ensures ToolDispatch.ToolResponses([call]) ==
      [ToolDispatch.ToolResponse("check_inventory", Inventory.StockReport("mouse", 120, "Available"))]
  {
    assert Inventory.CheckInventory("mouse") == Inventory.StockReport("mouse", 120, "Available") by {
      assert Inventory.Names("mouse", "mouse");
    }
    ToolDispatch.ToolResponsesAllKnown([call]);
  }

  lemma MouseFirstRound(call: ToolDispatch.FunctionCall, firstRound: seq<ToolDispatch.Chunk>)
    requires firstRound == [[ToolDispatch.Part("", Some(call))]]
    ensures ToolDispatch.FunctionCalls(ToolDispatch.PartsOf(firstRound)) == [call]
    ensures ToolDispatch.Yielded(ToolDispatch.TextsOf(ToolDispatch.PartsOf(firstRound))) == []
  {
    var part := ToolDispatch.Part("", Some(call));
    assert ToolDispatch.PartsOf(firstRound) == [part] by {
      assert firstRound[1..] == [];
    }
    assert ToolDispatch.FunctionCalls([part]) == [call] by {
      assert [part][1..] == [];
    }
    assert ToolDispatch.TextsOf([part]) == [""];
    assert [""][..0] == [];
  }
}
