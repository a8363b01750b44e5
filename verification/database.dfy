/**
  The rows the backend writes to the store and the session duration it
  computes. The store itself is not modelled: these functions build the row
  or patch that `insert`/`update` would receive, and take the row a `select`
  returned as an input.

  Instants are whole microseconds since the epoch. `isoformat` and
  `fromisoformat` are given as a `Clock`, since their text format is not
  part of this model.
 */
module Database {
  import opened Options
  import opened Text
  import opened Rows

  datatype Clock = Clock(isoformat: int -> string, fromIsoformat: string -> int)

  const MicrosPerSecond := 1_000_000

  /** The row `create_session` inserts into `sessions`. */
  function CreateSessionRecord(sessionId: string, userId: string, startTime: string): (r: Row)
    ensures r.Keys == {"session_id", "user_id", "start_time"}
    ensures r["session_id"] == Str(sessionId) && r["user_id"] == Str(userId)
    ensures HasStartTimeColumn(r) && StartTime(r) == Some(startTime)
  {
    map["session_id" := Str(sessionId), "user_id" := Str(userId), "start_time" := Str(startTime)]
  }

  /** `metadata or {}`: a missing or empty mapping becomes the empty mapping, any other is kept. */
  function MetadataOrEmpty(metadata: Option<map<string, Value>>): (m: map<string, Value>)
    ensures metadata.None? ==> m == map[]
    ensures metadata.Some? ==> m == metadata.value
  {
    match metadata
    case None => map[]
    case Some(given) => given
  }

  /** The row `log_event` inserts into `event_logs`. */
  function LogEventRecord(sessionId: string, eventType: string, content: string,
                          metadata: Option<map<string, Value>>, createdAt: string): (r: Row)
    ensures r.Keys == {"session_id", "event_type", "content", "metadata", "created_at"}
    ensures r["session_id"] == Str(sessionId)
    ensures r["event_type"] == Str(eventType)
    ensures r["content"] == Str(content)
    ensures metadata.None? ==> r["metadata"] == Obj(map[])
    ensures metadata.Some? ==> r["metadata"] == Obj(metadata.value)
    ensures r["created_at"] == Str(createdAt)
  {
    map["session_id" := Str(sessionId), "event_type" := Str(eventType), "content" := Str(content),
        "metadata" := Obj(MetadataOrEmpty(metadata)), "created_at" := Str(createdAt)]
  }

  /** A `sessions` row whose `start_time`, if present, is text or null, as the column holds. */
  predicate HasStartTimeColumn(row: Row) {
    "start_time" in row ==> row["start_time"].Str? || row["start_time"].Null?
  }

  /** `session_res.data.get("start_time")`: `None` when the column is absent or null. */
  function StartTime(row: Row): (r: Option<string>)
    requires HasStartTimeColumn(row)
    ensures r.Some? <==> "start_time" in row && row["start_time"].Str?
    ensures r.Some? ==> row["start_time"] == Str(r.value)
  {
    if "start_time" in row && row["start_time"].Str? then Some(row["start_time"].s) else None
  }

  /** `s.replace('Z', '+00:00')`: the UTC designator rewritten as an offset. */
  function NormalizeUtc(s: string): (r: string)
    ensures 'Z' !in r
    ensures 'Z' !in s ==> r == s
    ensures forall x :: x in r ==> (x in s && x != 'Z') || x in "+00:00"
  {
    ReplaceChar(s, 'Z', "+00:00")
  }

  /** Each half of a timestamp is normalised on its own. */
  lemma NormalizeUtcAppend(a: string, b: string)
    ensures NormalizeUtc(a + b) == NormalizeUtc(a) + NormalizeUtc(b)
  {
    ReplaceCharAppend(a, b, 'Z', "+00:00");
  }

  /** A 'Z' becomes "+00:00"; every other character is kept. */
  lemma NormalizeUtcChar(x: char)
    ensures NormalizeUtc([x]) == if x == 'Z' then "+00:00" else [x]
  {
    ReplaceCharSingle(x, 'Z', "+00:00");
  }

  /** Normalising twice changes nothing more: "+00:00" holds no 'Z'. */
  lemma NormalizeUtcIdempotent(s: string)
    ensures NormalizeUtc(NormalizeUtc(s)) == NormalizeUtc(s)
  {
  }

  /** `int(x)` of a number of seconds given in microseconds: the quotient truncated toward zero. */
  function TruncSeconds(micros: int): (q: int)
    ensures micros >= 0 ==> 0 <= q && q * MicrosPerSecond <= micros < q * MicrosPerSecond + MicrosPerSecond
    ensures micros < 0 ==> q <= 0 && q * MicrosPerSecond - MicrosPerSecond < micros <= q * MicrosPerSecond
  {
    if micros >= 0 then micros / MicrosPerSecond else -((-micros) / MicrosPerSecond)
  }

  /** Truncation is symmetric about zero, unlike the floor that Dafny's `/` computes. */
  lemma TruncSecondsOdd(micros: int)
    ensures TruncSeconds(-micros) == -TruncSeconds(micros)
  {
  }

  /** Half a second before the epoch truncates to 0 seconds, where flooring would give -1. */
  lemma TruncSecondsNotFloor()
    ensures TruncSeconds(-MicrosPerSecond / 2) == 0
    ensures (-MicrosPerSecond / 2) / MicrosPerSecond == -1
  {
  }

  /**
    `duration_seconds`: 0 when no start time was stored (absent, null or
    empty text); otherwise the elapsed seconds since the stored start,
    truncated toward zero and not clamped, so a start after the end gives a
    negative duration.
   */
  function DurationSeconds(start: Option<string>, endMicros: int, fromIsoformat: string -> int): (d: int)
    ensures start.None? || start == Some("") ==> d == 0
    ensures start.Some? && start.value != "" ==>
      var elapsed := endMicros - fromIsoformat(NormalizeUtc(start.value));
      && (elapsed >= 0 ==> 0 <= d && d * MicrosPerSecond <= elapsed < d * MicrosPerSecond + MicrosPerSecond)
      && (elapsed < 0 ==> d <= 0 && d * MicrosPerSecond - MicrosPerSecond < elapsed <= d * MicrosPerSecond)
  {
    if start.None? || start.value == "" then 0
    else TruncSeconds(endMicros - fromIsoformat(NormalizeUtc(start.value)))
  }

  /** The patch `update_session_summary` applies to the session's row. */
  function FinalizePatch(summary: string, endTime: string, duration: int): (r: Row)
    ensures r.Keys == {"summary", "end_time", "duration_seconds"}
    ensures r["summary"] == Str(summary)
    ensures r["end_time"] == Str(endTime)
    ensures r["duration_seconds"] == Int(duration)
  {
    map["summary" := Str(summary), "end_time" := Str(endTime), "duration_seconds" := Int(duration)]
  }

  /**
    `update_session_summary`: given the session row the store returned and
    the instant at which it runs, the patch written back.
   */
  function UpdateSessionSummary(sessionRow: Row, summary: string, endMicros: int, clock: Clock): (patch: Row)
    requires HasStartTimeColumn(sessionRow)
    ensures patch.Keys == {"summary", "end_time", "duration_seconds"}
    ensures patch["summary"] == Str(summary)
    ensures patch["end_time"] == Str(clock.isoformat(endMicros))
    ensures StartTime(sessionRow).None? ==> patch["duration_seconds"] == Int(0)
    ensures StartTime(sessionRow) == Some("") ==> patch["duration_seconds"] == Int(0)
    ensures StartTime(sessionRow).Some? && StartTime(sessionRow).value != "" ==>
      patch["duration_seconds"]
      == Int(TruncSeconds(endMicros - clock.fromIsoformat(NormalizeUtc(StartTime(sessionRow).value))))
  {
    var duration := DurationSeconds(StartTime(sessionRow), endMicros, clock.fromIsoformat);
    FinalizePatch(summary, clock.isoformat(endMicros), duration)
  }

  /**
    A session created at instant `t0` and finalised at `t1` records the
    elapsed whole seconds, provided the start time text reads back as `t0`.
   */
  lemma SessionDurationRoundTrip(sessionId: string, userId: string, t0: int, t1: int, summary: string, clock: Clock)
    requires clock.isoformat(t0) != ""
    requires clock.fromIsoformat(NormalizeUtc(clock.isoformat(t0))) == t0
    ensures var row := CreateSessionRecord(sessionId, userId, clock.isoformat(t0));
      UpdateSessionSummary(row, summary, t1, clock)["duration_seconds"] == Int(TruncSeconds(t1 - t0))
  {
  }

  /** A start time more than a second after the end gives a negative duration: nothing clamps it. */
  lemma NegativeDurationNotClamped(start: string, endMicros: int, fromIsoformat: string -> int)
    requires start != ""
    requires fromIsoformat(NormalizeUtc(start)) >= endMicros + MicrosPerSecond
    ensures DurationSeconds(Some(start), endMicros, fromIsoformat) < 0
  {
  }
}
