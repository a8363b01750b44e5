/**
  The tool-calling step of `stream_llm_response`: relay the first round's
  text, answer the function calls that name a known tool, and, only when at
  least one answer was built, relay the text of a second round. The model is
  an oracle: the first round is given as its chunks, the second round as a
  function from the tool answers sent to the chunk texts returned.
 */
module ToolDispatch {
  import opened Options
  import opened Text
  import opened Inventory

  /** A function call the model asked for; its only argument is the product name. */
  datatype FunctionCall = FunctionCall(name: string, product: string)

  /** One part of a streamed chunk: its text ("" when it carries none) and its function call, if any. */
  datatype Part = Part(text: string, call: Option<FunctionCall>)

  type Chunk = seq<Part>

  /** A function response sent back to the model: the tool's name and what it returned. */
  datatype ToolResponse = ToolResponse(name: string, response: StockReport)

  const CheckInventoryTool := "check_inventory"

  /** The keys of `available_tools`. */
  predicate IsAvailableTool(name: string) {
    name == CheckInventoryTool
  }

  /** Calls a known tool; `check_inventory` is the only one. */
  function Invoke(call: FunctionCall): (r: ToolResponse)
    requires IsAvailableTool(call.name)
    ensures r.name == CheckInventoryTool
    ensures r.response.product == call.product
    ensures r.response == CheckInventory(call.product)
  {
    ToolResponse(call.name, CheckInventory(call.product))
  }

  /** All parts of all chunks, in arrival order. */
  function PartsOf(chunks: seq<Chunk>): (r: seq<Part>)
    ensures forall p :: p in r <==> exists i :: 0 <= i < |chunks| && p in chunks[i]
  {
    if chunks == [] then [] else chunks[0] + PartsOf(chunks[1..])
  }

  /** The parts of later chunks come after those of earlier ones. */
  lemma {:induction false} PartsOfAppend(a: seq<Chunk>, b: seq<Chunk>)
    ensures PartsOf(a + b) == PartsOf(a) + PartsOf(b)
  {
    if a == [] {
      assert a + b == b;
    } else {
      assert (a + b)[0] == a[0];
      assert (a + b)[1..] == a[1..] + b;
      PartsOfAppend(a[1..], b);
    }
  }

  /** One chunk contributes its own parts, in order. */
  lemma PartsOfSingle(c: Chunk)
    ensures PartsOf([c]) == c
  {
    assert [c][1..] == [];
  }

  function TextsOf(parts: seq<Part>): seq<string> {
    seq(|parts|, i requires 0 <= i < |parts| => parts[i].text)
  }

  /** What `if text: yield text` lets through: the non-empty texts, in order. */
  function Yielded(texts: seq<string>): (r: seq<string>)
    ensures forall i :: 0 <= i < |r| ==> r[i] != ""
    ensures forall t :: t in r <==> t in texts && t != ""
    ensures |r| <= |texts|
  {
    if texts == [] then []
    else
      var init := texts[..|texts| - 1];
      var last := texts[|texts| - 1];
      assert texts == init + [last];
      Yielded(init) + if last == "" then [] else [last]
  }

  /** Dropping the empty texts loses nothing of the concatenated text. */
  lemma {:induction false} YieldedConcat(texts: seq<string>)
    ensures Concat(Yielded(texts)) == Concat(texts)
  {
    if texts != [] {
      var init, last := texts[..|texts| - 1], texts[|texts| - 1];
      var tail := if last == "" then [] else [last];
      YieldedConcat(init);
      ConcatAppend(Yielded(init), tail);
      ConcatSingle(last);
    }
  }

  /** A single text is yielded as it is when it is not empty, and dropped when it is. */
  lemma YieldedSingle(text: string)
    ensures Yielded([text]) == if text == "" then [] else [text]
  {
    assert [text][..0] == [];
  }

  /** One more text is yielded after the others, or dropped when it is empty. */
  lemma YieldedSnoc(texts: seq<string>, last: string)
    ensures Yielded(texts + [last]) == Yielded(texts) + if last == "" then [] else [last]
  {
    assert (texts + [last])[..|texts|] == texts;
  }

  /** The texts of a later part are yielded after those of an earlier one. */
  lemma {:induction false} YieldedAppend(a: seq<string>, b: seq<string>)
    ensures Yielded(a + b) == Yielded(a) + Yielded(b)
  {
    if b == [] {
      assert a + b == a;
    } else {
      var init, last := b[..|b| - 1], b[|b| - 1];
      var tail := if last == "" then [] else [last];
      assert Yielded(a + b) == Yielded(a + init) + tail by {
        assert a + b == (a + init) + [last];
        YieldedSnoc(a + init, last);
      }
      assert Yielded(b) == Yielded(init) + tail by {
        assert b == init + [last];
        YieldedSnoc(init, last);
      }
      YieldedAppend(a, init);
    }
  }

  /** `[p.function_call for p in parts if p.function_call]`. */
  function FunctionCalls(parts: seq<Part>): (r: seq<FunctionCall>)
    ensures forall c :: c in r <==> exists i :: 0 <= i < |parts| && parts[i].call == Some(c)
    ensures |r| <= |parts|
  {
    if parts == [] then []
    else
      (if parts[0].call.Some? then [parts[0].call.value] else []) + FunctionCalls(parts[1..])
  }

  /** The calls of later parts come after those of earlier ones, each copy kept. */
  lemma {:induction false} FunctionCallsAppend(a: seq<Part>, b: seq<Part>)
    ensures FunctionCalls(a + b) == FunctionCalls(a) + FunctionCalls(b)
  {
    if a == [] {
      assert a + b == b;
    } else {
      assert (a + b)[0] == a[0];
      assert (a + b)[1..] == a[1..] + b;
      FunctionCallsAppend(a[1..], b);
    }
  }

  /** One part contributes its call if it carries one, and nothing otherwise. */
  lemma FunctionCallsSingle(p: Part)
    ensures FunctionCalls([p]) == if p.call.Some? then [p.call.value] else []
  {
    assert [p][1..] == [];
  }

  /** The calls whose name is a key of `available_tools`, in call order. */
  function KnownCalls(calls: seq<FunctionCall>): (r: seq<FunctionCall>)
    ensures forall c :: c in r <==> c in calls && IsAvailableTool(c.name)
    ensures |r| <= |calls|
  {
    if calls == [] then []
    else
      assert forall c :: c in calls <==> c == calls[0] || c in calls[1..];
      (if IsAvailableTool(calls[0].name) then [calls[0]] else []) + KnownCalls(calls[1..])
  }

  /**
    The responses the loop over `function_calls` collects: one per call that
    names a known tool, in call order, each the tool's answer to that call;
    other calls are dropped.
   */
  function ToolResponses(calls: seq<FunctionCall>): (r: seq<ToolResponse>)
    ensures |r| == |KnownCalls(calls)|
    ensures forall i :: 0 <= i < |r| ==> r[i] == Invoke(KnownCalls(calls)[i])
  {
    if calls == [] then []
    else
      var known := if IsAvailableTool(calls[0].name) then [calls[0]] else [];
      assert KnownCalls(calls) == known + KnownCalls(calls[1..]);
      (if IsAvailableTool(calls[0].name) then [Invoke(calls[0])] else []) + ToolResponses(calls[1..])
  }

  /** Filtering a batch of calls filters its two halves one after the other. */
  lemma {:induction false} KnownCallsAppend(a: seq<FunctionCall>, b: seq<FunctionCall>)
    ensures KnownCalls(a + b) == KnownCalls(a) + KnownCalls(b)
  {
    if a == [] {
      assert a + b == b;
    } else {
      assert (a + b)[0] == a[0];
      assert (a + b)[1..] == a[1..] + b;
      KnownCallsAppend(a[1..], b);
    }
  }

  /** When every call names a known tool, each call gets its own response, at the same position. */
  lemma {:induction false} ToolResponsesAllKnown(calls: seq<FunctionCall>)
    requires forall i :: 0 <= i < |calls| ==> IsAvailableTool(calls[i].name)
    ensures |ToolResponses(calls)| == |calls|
    ensures forall i :: 0 <= i < |calls| ==> ToolResponses(calls)[i] == Invoke(calls[i])
  {
    if calls != [] {
      ToolResponsesAllKnown(calls[1..]);
      assert KnownCalls(calls) == [calls[0]] + KnownCalls(calls[1..]);
    }
  }

  /** Some part of the first round calls a known tool. */
  predicate RequestsKnownTool(parts: seq<Part>) {
    exists i :: 0 <= i < |parts| && parts[i].call.Some? && IsAvailableTool(parts[i].call.value.name)
  }

  /** A response is collected exactly when some part calls a known tool (`if tool_responses:`). */
  lemma KnownCallRequested(parts: seq<Part>)
    ensures ToolResponses(FunctionCalls(parts)) != [] <==> RequestsKnownTool(parts)
  {
    var calls := FunctionCalls(parts);
    var known := KnownCalls(calls);
    if known != [] {
      assert known[0] in known;
      var i :| 0 <= i < |parts| && parts[i].call == Some(known[0]);
    }
    if RequestsKnownTool(parts) {
      var i :| 0 <= i < |parts| && parts[i].call.Some? && IsAvailableTool(parts[i].call.value.name);
      assert parts[i].call.value in calls;
      assert parts[i].call.value in known;
    }
  }

  /**
    What one call of `stream_llm_response` yields, and the function responses
    it sent back to the model (`None` when no second round was issued).
   */
  datatype Reply = Reply(yielded: seq<string>, followUp: Option<seq<ToolResponse>>)

  function StreamLlmResponse(firstRound: seq<Chunk>, secondRound: seq<ToolResponse> -> seq<string>): (r: Reply)
    ensures r.yielded ==
      Yielded(TextsOf(PartsOf(firstRound)))
      + (if r.followUp.Some? then Yielded(secondRound(r.followUp.value)) else [])
    ensures Concat(r.yielded) ==
      Concat(TextsOf(PartsOf(firstRound)))
      + (if r.followUp.Some? then Concat(secondRound(r.followUp.value)) else "")
    ensures r.followUp ==
      if RequestsKnownTool(PartsOf(firstRound))
      then Some(ToolResponses(FunctionCalls(PartsOf(firstRound))))
      else None
    ensures Yielded(TextsOf(PartsOf(firstRound))) <= r.yielded
    ensures forall i :: 0 <= i < |r.yielded| ==> r.yielded[i] != ""
  {
    var parts := PartsOf(firstRound);
    var first := Yielded(TextsOf(parts));
    var responses := ToolResponses(FunctionCalls(parts));
    KnownCallRequested(parts);
    YieldedConcat(TextsOf(parts));
    if responses != [] then
      var second := Yielded(secondRound(responses));
      YieldedConcat(secondRound(responses));
      ConcatAppend(first, second);
      Reply(first + second, Some(responses))
    else
      Reply(first, None)
  }
}
