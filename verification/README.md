# Real-time AI backend: a Dafny model of its session core

The backend accepts one WebSocket connection per chat session. For each
connection it:

1. creates a `sessions` row for the demo user;
2. logs every received message as a `user_message`;
3. streams the model's reply to the client token by token, logging the
   whole reply as an `ai_message`, or, when the stream fails, sending and
   logging `Error generating response: <e>` as a `system_event`;
4. on disconnect, fetches the history, summarises it and writes the
   summary, end time and duration back to the session row.

The model may ask for the `check_inventory` tool. The backend answers such
calls and relays the model's second round.

The model is functional:

- `Session` writes a connection as the sequence of `Action`s it performs.
  The event log (`LogOf`) and the chunks sent to the client (`SentOf`) are
  projections of that sequence. `WebsocketEndpoint` and `HandleMessage` are
  the loops, proved to build exactly that sequence.
- `ToolDispatch` models the tool-calling step of `stream_llm_response`.
  The model's rounds are inputs.
- `Inventory` models `check_inventory`.
- `Transcript` models the rendering in `generate_summary`.
- `Database` models the rows and patches the store receives and the
  duration rule.
- The client's messages, the model's token streams, the store's answers,
  the summarising model and the clock are all parameters.
  - `Turn`/`Stream` hold the messages and streams.
  - `Backend` holds the history rows, the session row, the end instant and
    the summariser.
  - `Clock` holds `isoformat`/`fromisoformat` over integer microseconds.

## Model

| member | source | states |
|---|---|---|
| `Inventory.CheckInventory` | llm_service.py:14-30 | The report echoes the query as typed. Its quantity is the catalogue entry whose key equals the query up to letter case. "Not Found in Catalog" with quantity 0 exactly when no key matches. Otherwise "Available" exactly when the quantity is positive, and "Out of Stock" exactly when it is not. |
| `Inventory.LookupByLowering` | llm_service.py:24-26 | Lowering the query finds a catalogue key exactly when some key equals the query up to case, and then it is that key (every key is lower case). |
| `Inventory.CaseInsensitive` | llm_service.py:24-30 | Queries that differ only in letter case get the same quantity and status. |
| `Inventory.MonitorOutOfStock` | llm_service.py:17-28 | "Monitor" is catalogued with 0 units, so it is out of stock rather than not found. |
| `Inventory.MouseAvailable` | llm_service.py:17-28 | "MOUSE" finds the 120 mice, and the report keeps the query's spelling. |
| `Text.Lower` | llm_service.py:24 | Lowering keeps the length and lowers each ASCII capital in place. Every other character is kept. |
| `Text.LowerEqualIff` | llm_service.py:24 | Two strings lower to the same text exactly when they are equal up to ASCII case. |
| `ToolDispatch.PartsOf` | llm_service.py:45-48 | A part is collected exactly when some chunk holds it. |
| `ToolDispatch.PartsOfAppend` | llm_service.py:46-48 | The parts of later chunks follow those of earlier chunks. |
| `ToolDispatch.PartsOfSingle` | llm_service.py:47-48 | One chunk contributes its own parts, in order. |
| `ToolDispatch.Yielded` | llm_service.py:49-50 | Only non-empty texts are yielded, and a text is yielded exactly when it is a non-empty part text. There are never more yielded texts than parts. |
| `ToolDispatch.YieldedSingle` | llm_service.py:49-50 | One text is yielded as it is when it is non-empty, and dropped when it is empty. |
| `ToolDispatch.YieldedAppend` | llm_service.py:46-50 | The texts of later parts are yielded after those of earlier parts, so the order of arrival is kept. |
| `ToolDispatch.YieldedConcat` | llm_service.py:49-50 | Dropping the empty texts loses nothing of the concatenated text. |
| `ToolDispatch.FunctionCalls` | llm_service.py:52 | A call is collected exactly when some part carries it. There are never more calls than parts. |
| `ToolDispatch.FunctionCallsSingle` | llm_service.py:52 | One part contributes its call when it carries one, and nothing otherwise. |
| `ToolDispatch.FunctionCallsAppend` | llm_service.py:52 | The calls of later parts follow those of earlier parts, and repeated calls are all kept. |
| `ToolDispatch.Invoke` | llm_service.py:63-72 | A known call is answered under the `check_inventory` name with the stock report for the call's product. |
| `ToolDispatch.KnownCalls` | llm_service.py:57-65 | Keeps exactly the calls whose name is a key of `available_tools`. |
| `ToolDispatch.ToolResponses` | llm_service.py:54-72 | One response per known call, in call order. The i-th response is the tool's answer to the i-th known call. Calls naming unknown tools are dropped. |
| `ToolDispatch.KnownCallsAppend` | llm_service.py:57-72 | Filtering a batch of calls filters its halves in order, so call order is preserved. |
| `ToolDispatch.ToolResponsesAllKnown` | llm_service.py:57-72 | When every call names a known tool, each call gets its own response at the same position. |
| `ToolDispatch.KnownCallRequested` | llm_service.py:52-74 | At least one response is collected exactly when some part calls a known tool. |
| `ToolDispatch.StreamLlmResponse` | llm_service.py:41-82 | The yielded texts are the first round's non-empty texts in arrival order, followed by the second round's non-empty texts when there is a second round. A second round is requested exactly when some part calls a known tool, and it is sent exactly the collected responses. No empty text is yielded. The yielded texts concatenate to the first round's text followed by the second round's text, if any. |
| `Transcript.Role` | llm_service.py:89 | "User" exactly for `user_message` rows, "AI" for every other event type. |
| `Transcript.Content` | llm_service.py:90 | The row's content when present, the empty string when absent. |
| `Transcript.Render` | llm_service.py:87-91 | The rendering is empty exactly when there are no rows, and otherwise ends with a newline. |
| `Transcript.GenerateSummary` | llm_service.py:83-103 | An empty history gives "No interaction recorded." without asking the model. Otherwise the summary is the model's answer about the rendered conversation. |
| `Transcript.RenderSplitsIntoLines` | llm_service.py:87-91 | When no content holds a newline, cutting the rendered conversation at newlines gives back one `Role: content` line per row, in row order. |
| `Transcript.Terminated` | llm_service.py:91 | Each line gets exactly one newline after it, and lines keep their order. |
| `Transcript.RenderCons` | llm_service.py:88-91 | The first row's line and its newline come first, then the rest of the rendering. |
| `Transcript.RenderSnoc` | llm_service.py:88-91 | Appending a row to the history appends that row's `Role: content` line and a newline to the rendering. |
| `Transcript.RenderSnocStep` | llm_service.py:88-91 | With a row appended, a non-empty history still renders its first row's line first. |
| `Transcript.RenderIsConcat` | llm_service.py:87-91 | Whatever the contents hold, newlines included, the rendering is every row's `Role: content` line, in row order, each followed by a newline. |
| `Database.CreateSessionRecord` | database.py:18-26 | The inserted row has exactly the session id, the user id and the start time, and reading its start time back gives the stamp written. |
| `Database.MetadataOrEmpty` | database.py:37 | A missing metadata becomes the empty object. Given metadata is kept as it is. |
| `Database.LogEventRecord` | database.py:29-39 | The inserted row has exactly five columns: the session id, event type, content and creation stamp unchanged, and the metadata or the empty object when none is given. |
| `Database.StartTime` | database.py:67 | A start time is read exactly when the column is present and holds text. |
| `Text.ReplaceChar` | database.py:72 | Text without the replaced character is unchanged. When the replacement does not hold that character, none is left. Every character comes from the input (other than the replaced one) or from the replacement, and the whole replacement appears when the character occurred. |
| `Database.NormalizeUtc` | database.py:72 | No 'Z' is left. Text without 'Z' is unchanged. Every character comes from the input or from "+00:00". |
| `Text.ReplaceCharAppend` | database.py:72 | `replace` rewrites each half of a string on its own. |
| `Text.ReplaceCharSingle` | database.py:72 | One character becomes the replacement when it is the one replaced, and stays otherwise. |
| `Database.NormalizeUtcAppend` | database.py:72 | Each half of a timestamp is normalised on its own, so with `NormalizeUtcChar` the normalised text is fixed character by character. |
| `Database.NormalizeUtcChar` | database.py:72 | A 'Z' becomes "+00:00" and every other character is kept. |
| `Database.NormalizeUtcIdempotent` | database.py:72 | Normalising an already normalised timestamp changes nothing. |
| `Database.TruncSeconds` | database.py:73 | Whole seconds truncated toward zero: the bounds on each side of zero. |
| `Database.TruncSecondsOdd` | database.py:73 | `int()` is symmetric about zero: negating the elapsed time negates the seconds. |
| `Database.TruncSecondsNotFloor` | database.py:73 | Half a second before zero truncates to 0 where a floor would give -1. |
| `Database.DurationSeconds` | database.py:67-73 | 0 when the start time is absent, null or empty. Otherwise the elapsed time since the parsed, UTC-normalised start, truncated toward zero, negative when the start is after the end. |
| `Database.FinalizePatch` | database.py:75-79 | The patch has exactly the summary, end time and duration columns. |
| `Database.UpdateSessionSummary` | database.py:55-79 | The patch carries the summary and the formatted end instant. It records duration 0 when no start time was read or the start time is empty. Otherwise the duration is the whole seconds, truncated toward zero, from the UTC-normalised, parsed start to the end instant. |
| `Database.SessionDurationRoundTrip` | database.py:22-26 | A session stamped at t0 and finalised at t1 records the truncated seconds between them, provided the stamp parses back. |
| `Database.NegativeDurationNotClamped` | database.py:70-73 | A start more than a second after the end yields a negative duration. |
| `Session.Root` | main.py:7-9 | The payload has the single key "message", holding the liveness text. |
| `Session.PostSession` | main.py:11-22 | The history is fetched, then summarised, then written back, for this session. The summary is "No interaction recorded." for an empty history and otherwise the summariser's answer about the rendered history. The patch written back stores that same summary and the formatted end instant. The duration written back is the one `update_session_summary` computes from the stored start time and the end instant. |
| `Text.ConcatAppend` | main.py:36-40 | Building a reply by `+=` over two batches of tokens gives the first batch's text followed by the second's. |
| `Text.ConcatSingle` | main.py:40 | One token on its own builds exactly that token. |
| `Session.HandleMessage` | main.py:33-47 | One loop iteration builds exactly the turn's actions: receive, log the user message, call the model, send each token as it arrives while accumulating the reply, then log the reply or send and log the error text. |
| `Session.WebsocketEndpoint` | main.py:25-51 | The connection performs exactly `SessionTrace`: create the session, one iteration per turn, the disconnect, then the post-session steps. |
| `Session.TurnProjections` | main.py:33-47 | A turn logs its user message and then exactly one closing event. It sends its tokens in order, followed by the error text when the stream failed. |
| `Session.TurnRoundTrip` | main.py:36-47 | On success the logged `ai_message` is exactly the concatenation of what the client was sent in that turn. On failure the last chunk sent and the logged `system_event` are the same error text, and no `ai_message` is logged. |
| `Session.TurnsLog` | main.py:32-47 | Over any number of turns the log is one (user message, closing event) pair per turn, in turn order. |
| `Session.TurnsChunks` | main.py:36-46 | Over any number of turns the client receives each turn's chunks, turn after turn. |
| `Session.SessionLog` | main.py:25-51 | A whole connection's log is paired per turn, and its sent chunks are every turn's chunks. Creating the session and the post-session step log and send nothing. |
| `Session.SessionOrdering` | main.py:11-51 | The session is created first, for the demo user. Only loop actions follow until the disconnect. Every received message is logged before the model is called. The history is fetched, then summarised, then written back, and those are the last actions. |
| `Session.EventRowRendering` | database.py:29-39 | An event row as `log_event` writes it renders as "User: content" for a user message and "AI: content" otherwise. |
| `Session.PairedLines` | llm_service.py:88-91 | Rows that render as a paired log's events give exactly two lines per turn: the user's message with the "User" role, then the turn's closing event with the "AI" role. |
| `Session.HistoryTranscript` | llm_service.py:87-91 | When the store returns the rows this connection logged, the text handed to the summariser is the rows' lines, each followed by a newline. There are two lines per turn: "User: " with the message, then "AI: " with the reply or error text. |
| `Session.EmptySessionSummary` | main.py:11-22 | A connection that disconnects at once stores "No interaction recorded." as its summary. |
| `Session.HelloScenario` | main.py:36-42 | "Hi" and " there" are relayed in order and "Hi there" is logged. |
| `Session.ToolTurnLogged` | main.py:38-42 | A tool-using reply logs the first round's text followed by the second round's text, and never the tool call itself. |
| `Session.MouseToolScenario` | llm_service.py:52-82 | A `check_inventory("mouse")` call is answered with 120 available. The second round's text is what the client sees and what is logged. |

## Left out

- The model SDK, the database client and the WebSocket are not modelled.
  - The model's rounds are inputs: a first round of chunks, and the second round as a function of the responses sent.
  - The store's answers are inputs too: the history rows and the session row.
  - Sending and receiving are actions in a trace.
  - The prompt text sent with the history is not modelled; the summariser is a function of the rendered conversation.
- Environment checks at import time are not modelled: the missing API key or Supabase credentials that abort start-up.
- `print` calls are not modelled.
- The model name and tool registration with the SDK are not modelled.
- `get_chat_history`'s filter by session and ordering by `created_at` are server-side, so the history is an input. `Session.HistoryTranscript` assumes it returns the connection's rows in logging order.
- `.single()` raising when the session row is missing is not modelled. `Backend.sessionRow` is the row it returned.
- Failures of the store are not modelled. Examples: `log_event` raising inside the inner `try`, which would turn into an error message, and `update_session_summary` raising in the post-session step.
- A disconnect that surfaces while sending is not modelled. Only a disconnect at `receive_text` ends the loop.
- An exception raised after the error message was built is not modelled.
- Concurrency between sessions is not modelled.
- `ToolDispatch.Invoke`: the call's arguments are reduced to the product name. `**fn_args` with other or missing keywords, which would raise, is not modelled.
- `Transcript.Content`: history content must be text or absent. A null content, which Python renders as "None", is not modelled.
- `Text.Lower`: letter case is ASCII only. Python's full Unicode lower-casing, such as the Kelvin sign lowering to 'k', is not modelled.
- `Database.DurationSeconds`: instants are integer microseconds and `fromisoformat` is a total function.
  - Python's float `total_seconds()` is not modelled.
  - `fromisoformat` raising on malformed text is not modelled.
  - Subtracting a naive start from an aware end, which raises, is not modelled.
- `ToolDispatch.StreamLlmResponse`: function calls in the second round are not modelled, because the second round is only its texts. The code does not answer them either: it reads only `tool_chunk.text` and does not collect calls again.
- The summarising model raising is not modelled. `Backend.summarize` is a total function, so the path where the exception propagates out of `process_post_session` and `update_session_summary` is never called has no counterpart.
- The generated model's chunk metadata (safety data, finish reasons) is not modelled.

Behaviour notes:

- The duration is `int()` of the elapsed seconds. It is truncated toward zero and not clamped, so it can be negative.
- Without a stored start time the duration falls back to 0. Otherwise it is the truncated elapsed time, which is also 0 when the start is less than a second from the end in either direction.
- A missing session row raises instead of giving a duration of 0.
- The post-session step runs inline after the disconnect, in the same handler, and not as a separately scheduled task.
- Every 'Z' in the stored start time is replaced, not only a trailing one.
