/**
  `generate_summary`: an empty history gets a fixed sentence; otherwise the
  history rows are rendered one `Role: content` line each and the rendered
  conversation is handed to the summarising model, an oracle here.
 */
module Transcript {
  import opened Text
  import opened Rows

  const NoInteraction := "No interaction recorded."
  const UserMessageType := "user_message"
  const UserRole := "User"
  const AiRole := "AI"

  /** A history row the renderer can read: `log['event_type']` exists and the content, if any, is text. */
  predicate IsLogRow(row: Row) {
    "event_type" in row && ("content" in row ==> row["content"].Str?)
  }

  predicate AllLogRows(logs: seq<Row>) {
    forall i :: 0 <= i < |logs| ==> IsLogRow(logs[i])
  }

  function Role(row: Row): (r: string)
    requires IsLogRow(row)
    ensures r == UserRole <==> row["event_type"] == Str(UserMessageType)
    ensures r == UserRole || r == AiRole
  {
    if row["event_type"] == Str(UserMessageType) then UserRole else AiRole
  }

  /** `log.get('content', '')`. */
  function Content(row: Row): (r: string)
    requires IsLogRow(row)
    ensures "content" in row ==> row["content"] == Str(r)
    ensures "content" !in row ==> r == ""
  {
    if "content" in row then row["content"].s else ""
  }

  /** The line for one row, without its newline. */
  function LineText(row: Row): string
    requires IsLogRow(row)
  {
    Role(row) + ": " + Content(row)
  }

  /** The lines a reader of the rendered conversation should find, one per row, in order. */
  function Lines(logs: seq<Row>): (r: seq<string>)
    requires AllLogRows(logs)
  {
    seq(|logs|, i requires 0 <= i < |logs| => LineText(logs[i]))
  }

  /** `conversation_text`: every row's line followed by a newline. */
  function Render(logs: seq<Row>): (r: string)
    requires AllLogRows(logs)
    ensures r == "" <==> logs == []
    ensures logs != [] ==> r[|r| - 1] == '\n'
  {
    if logs == [] then "" else LineText(logs[0]) + "\n" + Render(logs[1..])
  }

  /** Every line followed by its newline, as `f"{role}: {content}\n"` writes it. */
  function Terminated(lines: seq<string>): (r: seq<string>)
    ensures |r| == |lines|
    ensures forall i :: 0 <= i < |lines| ==> r[i] == lines[i] + "\n"
  {
    seq(|lines|, i requires 0 <= i < |lines| => lines[i] + "\n")
  }

  lemma RenderCons(logs: seq<Row>)
    requires AllLogRows(logs) && logs != []
    ensures AllLogRows(logs[1..])
    ensures Render(logs) == LineText(logs[0]) + "\n" + Render(logs[1..])
  {
  }

  lemma AppendAssoc(a: string, b: string, c: string)
    ensures a + (b + c) == (a + b) + c
  {
  }

  lemma AllLogRowsSnoc(logs: seq<Row>, row: Row)
    requires AllLogRows(logs) && IsLogRow(row)
    ensures AllLogRows(logs + [row])
  {
    assert forall i :: 0 <= i < |logs| ==> (logs + [row])[i] == logs[i];
  }

  /** A row appended to the history appends its line, newline included, to the rendering. */
  lemma {:induction false} RenderSnoc(logs: seq<Row>, row: Row)
    requires AllLogRows(logs) && IsLogRow(row)
    ensures AllLogRows(logs + [row])
    ensures Render(logs + [row]) == Render(logs) + (LineText(row) + "\n")
  {
    AllLogRowsSnoc(logs, row);
    if logs == [] {
      assert logs + [row] == [row];
      RenderCons([row]);
    } else {
      var rest := logs[1..];
      RenderCons(logs);
      RenderSnoc(rest, row);
      RenderSnocStep(logs, row);
      AppendAssoc(LineText(logs[0]) + "\n", Render(rest), LineText(row) + "\n");
    }
  }

  /** Rendering a non-empty batch with a row appended begins with the batch's first line. */
  lemma RenderSnocStep(logs: seq<Row>, row: Row)
    requires AllLogRows(logs) && AllLogRows(logs + [row]) && logs != []
    ensures AllLogRows(logs[1..] + [row])
    ensures Render(logs + [row]) == LineText(logs[0]) + "\n" + Render(logs[1..] + [row])
  {
    var all := logs + [row];
    assert all[0] == logs[0];
    assert all[1..] == logs[1..] + [row];
    RenderCons(all);
  }

  /** The rendering is the rows' lines, in row order, each followed by a newline. */
  lemma {:induction false} RenderIsConcat(logs: seq<Row>)
    requires AllLogRows(logs)
    ensures Render(logs) == Concat(Terminated(Lines(logs)))
  {
    if logs != [] {
      var init, last := logs[..|logs| - 1], logs[|logs| - 1];
      assert logs == init + [last];
      assert AllLogRows(init);
      RenderIsConcat(init);
      RenderSnoc(init, last);
      var lines := Terminated(Lines(logs));
      assert lines[..|lines| - 1] == Terminated(Lines(init));
    }
  }

  /** The summary for a history; `summarize` stands for the model asked about the rendered conversation. */
  function GenerateSummary(logs: seq<Row>, summarize: string -> string): (r: string)
    requires AllLogRows(logs)
    ensures logs == [] ==> r == NoInteraction
    ensures logs != [] ==> r == summarize(Render(logs))
  {
    if logs == [] then NoInteraction else summarize(Render(logs))
  }

  lemma LineTextHasNoNewline(row: Row)
    requires IsLogRow(row)
    requires '\n' !in Content(row)
    ensures '\n' !in LineText(row)
  {
    var role := Role(row);
    assert '\n' !in role by {
      if role == UserRole {
        assert role == ['U', 's', 'e', 'r'];
      } else {
        assert role == ['A', 'I'];
      }
    }
    assert LineText(row) == role + [':', ' '] + Content(row);
  }

  /** No row's content holds a newline. */
  predicate SingleLineContents(logs: seq<Row>)
    requires AllLogRows(logs)
  {
    forall i :: 0 <= i < |logs| ==> '\n' !in Content(logs[i])
  }

  lemma LinesCons(logs: seq<Row>)
    requires AllLogRows(logs) && logs != []
    ensures AllLogRows(logs[1..])
    ensures Lines(logs) == [LineText(logs[0])] + Lines(logs[1..])
  {
    var tail := logs[1..];
    assert forall i :: 0 <= i < |tail| ==> tail[i] == logs[i + 1];
  }

  /**
    When no content holds a newline, cutting the rendered conversation into
    lines gives back exactly one line per row, in row order.
   */
  lemma {:induction false} RenderSplitsIntoLines(logs: seq<Row>)
    requires AllLogRows(logs)
    requires SingleLineContents(logs)
    ensures SplitLines(Render(logs)) == Lines(logs)
  {
    if logs != [] {
      var tail := logs[1..];
      LinesCons(logs);
      assert SingleLineContents(tail) by {
        assert forall i :: 0 <= i < |tail| ==> tail[i] == logs[i + 1];
      }
      RenderSplitsIntoLines(tail);
      var line := LineText(logs[0]);
      LineTextHasNoNewline(logs[0]);
      SplitLinesCons(line, Render(tail));
    }
  }
}
