/** Tool outputs handed from response to response
    (crates/copenai-server/src/responses/orchestrator.rs), one request at a time. */
module ResponseChain {
  import opened Wrappers
  import opened Json
  import opened Sequences
  import opened Responses
  import Items

  datatype ToolOutput = ToolOutput(callId: string, output: string)

  // ---- Chain items ----

  /** The tool output an input item carries, if it is one. */
  function ToolOutputOf(item: Json): Option<ToolOutput> {
    var callId, output := StringOf(item.Get("call_id")), StringOf(item.Get("output"));
    if item.Get("type") == Some(Str("function_call_output")) && callId.Some? && output.Some?
    then Some(ToolOutput(callId.value, output.value)) else None
  }

  function ToolOutputJson(t: ToolOutput): (item: Json)
    ensures ToolOutputOf(item) == Some(t)
  {
    Object(map["type" := Str("function_call_output"), "call_id" := Str(t.callId), "output" := Str(t.output)])
  }

  function Joined(texts: seq<string>): (r: string)
    ensures r != "" <==> exists k :: 0 <= k < |texts| && texts[k] != ""
    ensures |texts| == 1 ==> r == texts[0]
  {
    if texts == [] then "" else texts[0] + Joined(texts[1..])
  }

  /** Calls and non-empty messages are remembered, other output items are not;
      none of them reads back as a tool output. */
  function OutputItemToChain(item: Items.OutputItem): (r: Option<Json>)
    ensures r.Some? ==> ToolOutputOf(r.value).None?
    ensures r.Some? <==>
      item.FunctionCall? || (item.Message? && exists k :: 0 <= k < |item.content| && item.content[k] != "")
    ensures item.FunctionCall? ==>
      && r.value.Get("type") == Some(Str("function_call")) && r.value.Get("call_id") == Some(Str(item.callId))
      && r.value.Get("name") == Some(Str(item.name)) && r.value.Get("arguments") == Some(Str(item.arguments))
    ensures item.Message? && r.Some? ==>
      && r.value.Get("type") == Some(Str("message")) && r.value.Get("role") == Some(Str(item.role))
      && (|item.content| == 1 ==> r.value.Get("content") == Some(Str(item.content[0])))
  {
    match item
    case FunctionCall(_, callId, name, arguments, _) =>
      Some(Object(map["type" := Str("function_call"), "call_id" := Str(callId),
                      "name" := Str(name), "arguments" := Str(arguments)]))
    case Message(_, role, _, content) =>
      if Joined(content) == "" then None
      else Some(Object(map["type" := Str("message"), "role" := Str(role), "content" := Str(Joined(content))]))
    case _ => None
  }

  function OutputsIn(items: seq<Json>): seq<ToolOutput> {
    if items == [] then [] else
      var last := ToolOutputOf(items[|items| - 1]);
      OutputsIn(items[..|items| - 1]) + (if last.Some? then [last.value] else [])
  }

  lemma {:induction false} OutputsInAppend(a: seq<Json>, b: seq<Json>)
    ensures OutputsIn(a + b) == OutputsIn(a) + OutputsIn(b)
  {
    if b == [] {
      assert a + b == a;
    } else {
      assert (a + b)[..|a + b| - 1] == a + b[..|b| - 1];
      OutputsInAppend(a, b[..|b| - 1]);
    }
  }

  function OutputJsons(outputs: seq<ToolOutput>): seq<Json> {
    if outputs == [] then [] else OutputJsons(outputs[..|outputs| - 1]) + [ToolOutputJson(outputs[|outputs| - 1])]
  }

  function RememberedItems(items: seq<Items.OutputItem>): seq<Json> {
    if items == [] then [] else
      var last := OutputItemToChain(items[|items| - 1]);
      RememberedItems(items[..|items| - 1]) + (if last.Some? then [last.value] else [])
  }

  /** The chain saved with a response: all its tool outputs, inherited ones
      included, then what it said and called. */
  function ChainItems(outputs: seq<ToolOutput>, items: seq<Items.OutputItem>): seq<Json> {
    OutputJsons(outputs) + RememberedItems(items)
  }

  method BuildInputChainItems(outputs: seq<ToolOutput>, response: seq<Items.OutputItem>) returns (items: seq<Json>)
    ensures items == ChainItems(outputs, response)
  {
    items := [];
    var i := 0;
    while i < |outputs|
      invariant 0 <= i <= |outputs|
      invariant items == OutputJsons(outputs[..i])
    {
      assert outputs[..i + 1][..i] == outputs[..i];
      items := items + [ToolOutputJson(outputs[i])];
      i := i + 1;
    }
    assert outputs[..i] == outputs;
    i := 0;
    while i < |response|
      invariant 0 <= i <= |response|
      invariant items == OutputJsons(outputs) + RememberedItems(response[..i])
    {
      assert response[..i + 1][..i] == response[..i];
      var json := OutputItemToChain(response[i]);
      if json.Some? {
        items := items + [json.value];
      }
      i := i + 1;
    }
    assert response[..i] == response;
  }

  lemma {:induction false} OutputJsonsReadBack(outputs: seq<ToolOutput>)
    ensures OutputsIn(OutputJsons(outputs)) == outputs
  {
    if outputs != [] {
      var n := |outputs| - 1;
      OutputJsonsReadBack(outputs[..n]);
      var front := OutputJsons(outputs[..n]);
      assert (front + [ToolOutputJson(outputs[n])])[..|front|] == front;
      assert outputs == outputs[..n] + [outputs[n]];
    }
  }

  lemma {:induction false} RememberedItemsHoldNoOutput(items: seq<Items.OutputItem>)
    ensures OutputsIn(RememberedItems(items)) == []
  {
    if items != [] {
      var n := |items| - 1;
      RememberedItemsHoldNoOutput(items[..n]);
      var last := OutputItemToChain(items[n]);
      if last.Some? {
        var front := RememberedItems(items[..n]);
        assert (front + [last.value])[..|front|] == front;
        assert OutputsIn(front + [last.value]) == OutputsIn(front) + [];
      } else {
        assert RememberedItems(items[..n]) + [] == RememberedItems(items[..n]);
      }
    }
  }

  /** Reading a saved chain back gives exactly the tool outputs that went in. */
  lemma ChainReadsBack(outputs: seq<ToolOutput>, items: seq<Items.OutputItem>)
    ensures OutputsIn(ChainItems(outputs, items)) == outputs
  {
    OutputsInAppend(OutputJsons(outputs), RememberedItems(items));
    OutputJsonsReadBack(outputs);
    RememberedItemsHoldNoOutput(items);
  }

  // ---- One request against the store ----

  /** The tool outputs a turn works with: its own, then those found in the chain
      of the previous response. */
  function Enriched(rows: Table, previous: Option<Id>, own: seq<ToolOutput>): Result<seq<ToolOutput>, string> {
    if previous.None? then Success(own) else
      var chain :- ChainOf(rows, previous.value);
      Success(own + OutputsIn(chain))
  }

  method EnrichFromPrevious(store: ResponseStore, previous: Option<Id>, own: seq<ToolOutput>)
    returns (r: Result<seq<ToolOutput>, string>)
    ensures r == Enriched(store.rows, previous, own)
  {
    if previous.None? {
      return Success(own);
    }
    var chain := store.ChainInputItems(previous.value);
    if chain.Failure? {
      return Failure(chain.error);
    }
    var outputs := own;
    var i := 0;
    while i < |chain.value|
      invariant 0 <= i <= |chain.value|
      invariant outputs == own + OutputsIn(chain.value[..i])
    {
      assert chain.value[..i + 1][..i] == chain.value[..i];
      var item := ToolOutputOf(chain.value[i]);
      if item.Some? {
        outputs := outputs + [item.value];
      }
      i := i + 1;
    }
    assert chain.value[..i] == chain.value;
    return Success(outputs);
  }

  predicate ShouldStore(wantsStore: bool, previous: Option<Id>) {
    wantsStore || previous.Some?
  }

  /** A request is recorded before it runs when it asks to be, or continues another. */
  method RecordRequest(store: ResponseStore, id: Id, conversationId: Option<string>, model: string,
                       toolExecution: string,
                       wantsStore: bool, previous: Option<Id>, now: int) returns (r: Result<bool, string>)
    modifies store
    ensures r.Success? ==> (r.value <==> wantsStore || previous.Some?)
    ensures r.Failure? <==> (wantsStore || previous.Some?) && id in old(store.rows)
    ensures store.rows == if r.Success? && r.value
                          then Created(old(store.rows), id, conversationId, model, toolExecution, previous, now)
                          else old(store.rows)
  {
    if wantsStore || previous.Some? {
      var created := store.Create(id, conversationId, model, toolExecution, previous, now);
      if created.Failure? {
        return Failure(created.error);
      }
      return Success(true);
    }
    return Success(false);
  }

  method PersistResponse(store: ResponseStore, id: Id, status: string, output: JsonList,
                         outputs: seq<ToolOutput>, response: seq<Items.OutputItem>, now: int)
    modifies store
    ensures store.rows
         == Completed(old(store.rows), id, status, output, Some(Parsed(ChainItems(outputs, response))), now)
    ensures OnlyRow(old(store.rows), store.rows, id)
    ensures id in old(store.rows) ==>
      && RowCompleted(old(store.rows)[id], store.rows[id], status, output, store.rows[id].inputChainJson, now)
      && store.rows[id].inputChainJson.Some? && store.rows[id].inputChainJson.value.Parsed?
      && OutputsIn(store.rows[id].inputChainJson.value.items) == outputs
  {
    ChainReadsBack(outputs, response);
    var chain := BuildInputChainItems(outputs, response);
    store.UpdateCompleted(id, status, output, Some(Parsed(chain)), now);
  }
}
