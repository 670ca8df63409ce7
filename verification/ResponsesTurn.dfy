/** One turn of the Responses API as it runs, answered at once or streamed
    (crates/copenai-server/src/tools/orchestrate.rs,
    crates/copenai-server/src/responses/orchestrator.rs). */
module ResponsesTurn {
  import opened Wrappers
  import opened Events
  import opened Json
  import opened Items
  import opened Drain
  import opened Emitted
  import opened StreamSpec
  import opened Streaming
  import opened TurnSpec
  import opened TurnLaws
  import TC = ToolCalls
  import TL = ToolLoop

  ghost predicate SameOutcome(r: Result<TurnOutcome, string>, spec: Result<TurnOutcome, string>) {
    match spec
    case Failure(e) => r == Failure(e)
    case Success(o) => r.Success? && r.value.(outputs := AnonymousAll(r.value.outputs)) == o
  }

  /** The events of the streamed calls whose items are appended to a response. */
  function AllCallEvents(created: ResponseObject, items: seq<OutputItem>): seq<ResponsesStreamEvent> {
    if items == [] then [] else
      var n := |items| - 1;
      AllCallEvents(created, items[..n])
      + CallEvents(created.(output := created.output + items), |created.output| + n, items[n])
  }

  /** The emitted events stream exactly these calls, one after the other, each with
      the snapshot as it is once its item is appended. */
  ghost predicate StreamsCalls(emitted: seq<ResponsesStreamEvent>, created: ResponseObject, lib: JsonLibrary,
                               calls: seq<TC.FunctionCall>)
  {
    exists items: seq<OutputItem> ::
      && AnonymousAll(items) == TL.CallItems(lib, calls)
      && emitted == AllCallEvents(created, items)
  }

  lemma NoCallsStreamed(created: ResponseObject, lib: JsonLibrary)
    ensures StreamsCalls([], created, lib, [])
  {
    assert AnonymousAll([]) == TL.CallItems(lib, []);
    assert AllCallEvents(created, []) == [];
  }

  lemma OneItemMore(lib: JsonLibrary, calls: seq<TC.FunctionCall>, i: nat, items: seq<OutputItem>, item: OutputItem)
    requires i < |calls|
    requires AnonymousAll(items) == TL.CallItems(lib, calls[..i])
    requires AnonymousAll([item]) == TL.CallItems(lib, [calls[i]])
    ensures AnonymousAll(items + [item]) == TL.CallItems(lib, calls[..i + 1])
  {
    hide *;
    TL.ItemsAppend(items, [item]);
    TL.CallItemsAppend(lib, calls[..i], [calls[i]]);
    assert calls[..i + 1] == calls[..i] + [calls[i]];
  }

  lemma {:induction false} OneCallMore(created: ResponseObject, all: seq<OutputItem>, n: nat)
    requires |all| == n + 1
    ensures AllCallEvents(created, all) == AllCallEvents(created, all[..n])
            + CallEvents(created.(output := created.output + all), |created.output| + n, all[n])
  {
    hide CallEvents;
  }

  /** Streamed client calls: added, arguments, done, each index pointing at its
      item in the snapshot it travels with. */
  method EmitToolSseEvents(lib: JsonLibrary, created: ResponseObject, calls: seq<TC.FunctionCall>)
    returns (emitted: seq<ResponsesStreamEvent>)
    ensures Wordless(emitted)
    ensures StreamsCalls(emitted, created, lib, calls)
    ensures CallsTold(emitted, lib, calls, |created.output|)
  {
    hide Wordless, CallsTold, AnonymousAll, TL.CallItems, CallEvents, AllCallEvents;
    var response := created;
    emitted := [];
    ghost var items: seq<OutputItem> := [];
    EmittedNothing(lib, created);
    var i := 0;
    assert calls[..0] == [];
    while i < |calls|
      invariant 0 <= i <= |calls|
      invariant Wordless(emitted) && CallsTold(emitted, lib, calls[..i], |created.output|)
      invariant response == created.(output := created.output + items)
      invariant AnonymousAll(items) == TL.CallItems(lib, calls[..i])
      invariant emitted == AllCallEvents(created, items)
    {
      var made := TL.CallsToOutput(lib, [calls[i]]);
      OneItemMade(lib, calls[i], made);
      var item := made[0];
      OneItemMore(lib, calls, i, items, item);
      ghost var longer := items + [item];
      assert longer[..|items|] == items;
      OneCallMore(created, longer, |items|);
      var at := |response.output|;
      response := response.(output := response.output + [item]);
      assert response.output == created.output + longer;
      ghost var before := emitted;
      emitted := EmitCall(emitted, response, at, item, lib.render(calls[i].arguments));
      CallToldMore(before, emitted, lib, calls, i, |created.output|, items, item);
      items := longer;
      i := i + 1;
    }
    assert calls[..i] == calls;
  }

  lemma {:induction false} EmittedNothing(lib: JsonLibrary, created: ResponseObject)
    ensures Wordless([]) && CallsTold([], lib, [], |created.output|)
    ensures AnonymousAll([]) == TL.CallItems(lib, [])
    ensures AllCallEvents(created, []) == []
  {
  }

  lemma OneItemMade(lib: JsonLibrary, call: TC.FunctionCall, made: seq<OutputItem>)
    requires AnonymousAll(made) == TL.CallItems(lib, [call])
    ensures |made| == 1 && made == [made[0]]
    ensures made[0].FunctionCall? && made[0].arguments == lib.render(call.arguments)
  {
    assert |AnonymousAll(made)| == 1;
    assert Anonymous(made[0]) == AnonymousAll(made)[0];
  }

  /** The events of one streamed call. */
  function CallEvents(response: ResponseObject, at: nat, item: OutputItem): seq<ResponsesStreamEvent> {
    if !item.FunctionCall? then [] else
    [OutputItemAdded(response, at, item)]
    + (if item.arguments != "" then [FunctionCallArgumentsDelta(item.id, response, at, item.arguments)] else [])
    + [FunctionCallArgumentsDone(response, at, item.arguments), OutputItemDone(response, at, item)]
  }

  lemma CallDonesMore(lib: JsonLibrary, calls: seq<TC.FunctionCall>, i: nat, from: nat, items: seq<OutputItem>,
                      item: OutputItem)
    requires i < |calls| && |items| == i
    requires AnonymousAll(items + [item]) == TL.CallItems(lib, calls[..i + 1])
    ensures CallDones(lib, calls[..i + 1], from)
        == CallDones(lib, calls[..i], from) + [ItemAt(from + i, Anonymous(item))]
  {
    var a := CallDones(lib, calls[..i + 1], from);
    var b := CallDones(lib, calls[..i], from) + [ItemAt(from + i, Anonymous(item))];
    assert |a| == |b|;
    forall k | 0 <= k < |a| ensures a[k] == b[k] {
      if k < i {
        assert calls[..i + 1][k] == calls[..i][k];
      } else {
        assert TL.CallItems(lib, calls[..i + 1])[i] == Anonymous((items + [item])[i]);
      }
    }
  }

  lemma CallToldMore(before: seq<ResponsesStreamEvent>, emitted: seq<ResponsesStreamEvent>, lib: JsonLibrary,
                     calls: seq<TC.FunctionCall>, i: nat, from: nat, items: seq<OutputItem>, item: OutputItem)
    requires i < |calls| && |items| == i
    requires AnonymousAll(items + [item]) == TL.CallItems(lib, calls[..i + 1])
    requires CallsTold(before, lib, calls[..i], from)
    requires OneCallTold(before, emitted, from + i, Anonymous(item), lib.render(calls[i].arguments))
    ensures CallsTold(emitted, lib, calls[..i + 1], from)
  {
    CallDonesMore(lib, calls, i, from, items, item);
    assert calls[..i + 1][..i] == calls[..i];
    hide Dones, Addeds, Arguments, Paired, CallDones;
  }

  /** One more call was announced, its arguments given and closed, at one index. */
  ghost predicate OneCallTold(before: seq<ResponsesStreamEvent>, after: seq<ResponsesStreamEvent>, at: nat,
                              item: OutputItem, arguments: string)
  {
    && Addeds(after) == Addeds(before) + [ItemAt(at, item)]
    && Dones(after) == Dones(before) + [ItemAt(at, item)]
    && Arguments(after) == Arguments(before) + CallArguments(at, arguments)
    && (Paired(before) ==> Paired(after))
  }

  method EmitCall(before: seq<ResponsesStreamEvent>, response: ResponseObject, at: nat, item: OutputItem, args: string)
    returns (emitted: seq<ResponsesStreamEvent>)
    requires Wordless(before)
    requires at < |response.output| && response.output[at] == item
    requires item.FunctionCall? && item.arguments == args
    ensures Wordless(emitted) && OneCallTold(before, emitted, at, Anonymous(item), args)
    ensures emitted == before + CallEvents(response, at, item)
  {
    hide Wordless, Dones, Addeds, Arguments, Paired, CallEvents, Quiet, DoneOf, AddedOf, ArgumentsOf;
    var added, delta := OutputItemAdded(response, at, item), FunctionCallArgumentsDelta(item.id, response, at, args);
    var given, done := FunctionCallArgumentsDone(response, at, args), OutputItemDone(response, at, item);
    CallIsQuiet(response, at, item);
    OneQuiet(before, added);
    emitted := before + [added];
    if args != "" {
      OneQuiet(emitted, delta);
      emitted := emitted + [delta];
    }
    OneQuiet(emitted, given);
    OneQuiet(emitted + [given], done);
    CallAppended(before, response, at, item);
    CallPaired(before, response, at, item);
    emitted := emitted + [given] + [done];
    assert Arguments(before) + CallArguments(at, args)
        == if args != "" then Arguments(before) + [Piece(at, args)] + [Whole(at, args)]
           else Arguments(before) + [Whole(at, args)];
  }

  lemma CallPaired(before: seq<ResponsesStreamEvent>, response: ResponseObject, at: nat, item: OutputItem)
    requires item.FunctionCall?
    ensures Paired(before) ==> Paired(before + CallEvents(response, at, item))
  {
    var events := CallEvents(response, at, item);
    var next := if item.arguments != "" then FunctionCallArgumentsDelta(item.id, response, at, item.arguments)
                else FunctionCallArgumentsDone(response, at, item.arguments);
    assert events[0] == OutputItemAdded(response, at, item) && events[1] == next;
    assert forall k :: 1 <= k < |events| ==> !events[k].OutputItemAdded?;
    assert Paired(events);
    if Paired(before) {
      PairedJoined(before, events);
    }
  }

  /** Right, in mid-stream and about no message. */
  predicate Quiet(e: ResponsesStreamEvent) {
    IndexRight(e) && MidStream(e) && StepOf(e) == [] && !e.OutputTextDelta?
  }

  lemma CallIsQuiet(response: ResponseObject, at: nat, item: OutputItem)
    requires item.FunctionCall? && at < |response.output| && response.output[at] == item
    ensures var e := OutputItemAdded(response, at, item);
      Quiet(e) && AddedOf(e) == [ItemAt(at, Anonymous(item))] && ArgumentsOf(e) == [] && DoneOf(e) == []
    ensures var e := FunctionCallArgumentsDelta(item.id, response, at, item.arguments);
      Quiet(e) && AddedOf(e) == [] && ArgumentsOf(e) == [Piece(at, item.arguments)] && DoneOf(e) == []
    ensures var e := FunctionCallArgumentsDone(response, at, item.arguments);
      Quiet(e) && AddedOf(e) == [] && ArgumentsOf(e) == [Whole(at, item.arguments)] && DoneOf(e) == []
    ensures var e := OutputItemDone(response, at, item);
      Quiet(e) && AddedOf(e) == [] && ArgumentsOf(e) == [] && DoneOf(e) == [ItemAt(at, Anonymous(item))]
  {
  }

  lemma CallAppended(before: seq<ResponsesStreamEvent>, response: ResponseObject, at: nat, item: OutputItem)
    requires item.FunctionCall?
    ensures var start := before + [OutputItemAdded(response, at, item)];
      var middle := if item.arguments != ""
                    then start + [FunctionCallArgumentsDelta(item.id, response, at, item.arguments)] else start;
      before + CallEvents(response, at, item)
      == middle + [FunctionCallArgumentsDone(response, at, item.arguments)] + [OutputItemDone(response, at, item)]
  {
  }

  lemma {:induction false} OneQuiet(before: seq<ResponsesStreamEvent>, e: ResponsesStreamEvent)
    requires Wordless(before) && Quiet(e)
    ensures Wordless(before + [e]) && Dones(before + [e]) == Dones(before) + DoneOf(e)
    ensures DoneOf(e) == [] ==> Dones(before + [e]) == Dones(before)
    ensures Addeds(before + [e]) == Addeds(before) + AddedOf(e)
    ensures AddedOf(e) == [] ==> Addeds(before + [e]) == Addeds(before)
    ensures Arguments(before + [e]) == Arguments(before) + ArgumentsOf(e)
    ensures ArgumentsOf(e) == [] ==> Arguments(before + [e]) == Arguments(before)
  {
    hide IndicesRight, AllMidStream, TextDeltas, MessageSteps, SideSteps, Dones, OneItemId, IndexRight, DoneOf;
    hide Addeds, Arguments, AddedOf, ArgumentsOf;
    Emit(before, e);
  }

  /** Appends the turn's text as a message item, when there is text. */
  method PushMessage(outputs: seq<OutputItem>, text: string) returns (outputs': seq<OutputItem>)
    ensures AnonymousAll(outputs') == AnonymousAll(outputs) + MessageOf(text)
  {
    outputs' := TL.AppendMessage(outputs, text);
  }

  method HandleTools(req: TurnRequest, env: Environment, drained: Drained, created: ResponseObject, streaming: bool)
    returns (r: Result<TurnOutcome, string>, emitted: seq<ResponsesStreamEvent>)
    ensures SameOutcome(r, AfterTools(req, env, Collected(drained.text, drained.usage, drained.finish),
                                      AnonymousAll(drained.outputs)))
    ensures Wordless(emitted)
    ensures var calls := if streaming then ClientCalls(req, env, drained.text) else [];
      CallsTold(emitted, env.loop.lib, calls, |created.output|)
    ensures StreamsCalls(emitted, created, env.loop.lib, if streaming then ClientCalls(req, env, drained.text) else [])
    ensures !streaming ==> emitted == []
  {
    hide Wordless, CallsTold, StreamsCalls;
    emitted := [];
    NoCallsStreamed(created, env.loop.lib);
    EmittedNothing(env.loop.lib, created);
    var tools := TC.FilterTools(req.tools, req.choice);
    var reason := if drained.finish.Length? then Some(MaxOutputTokens) else None;
    var outputs := drained.outputs;
    if tools == [] {
      outputs := PushMessage(outputs, drained.text);
      r := Success(TurnOutcome(drained.text, outputs, drained.usage, reason));
    } else if req.mode.Client? {
      var parsed := TC.ParseCalls(env.loop.lib, drained.text, tools, req.choice, env.clientCallId);
      if parsed.Failure? {
        return Failure(parsed.error), [];
      }
      if parsed.value != [] {
        if streaming {
          emitted := EmitToolSseEvents(env.loop.lib, created, parsed.value);
        }
        var items := TL.CallsToOutput(env.loop.lib, parsed.value);
        TL.ItemsAppend(outputs, items);
        r := Success(TurnOutcome("", outputs + items, drained.usage, Some(ToolCalls)));
      } else {
        outputs := PushMessage(outputs, drained.text);
        r := Success(TurnOutcome(drained.text, outputs, drained.usage, reason));
      }
    } else {
      var ran, posted := TL.RunServerLoop(env.loop, env.config, drained.text, tools, req.choice, req.parallel);
      if ran.Failure? {
        return Failure(ran.error), [];
      }
      TL.ItemsAppend(outputs, ran.value.1);
      r := Success(TurnOutcome(ran.value.0, outputs + ran.value.1, drained.usage,
                               if ran.value.2 then Some(MaxToolSteps) else reason));
    }
  }

  method CheckSchema(req: TurnRequest, env: Environment, o: TurnOutcome) returns (r: Result<TurnOutcome, string>)
    ensures SameOutcome(r, AfterSchema(req, env, o.(outputs := AnonymousAll(o.outputs))))
  {
    if SchemaOk(req, env, o.text) {
      return Success(o);
    }
    if env.retry.Failure? {
      return Failure(env.retry.error);
    }
    var again := DrainSync(env.retry.value, false, false);
    if again.Failure? {
      return Failure(again.error);
    }
    var reason := if again.value.finish.Length? then Some(MaxOutputTokens) else o.incompleteReason;
    if !SchemaOk(req, env, again.value.text) {
      return Failure(env.schemaError(again.value.text, req.schema.value).value);
    }
    var outputs := o.outputs;
    assert AnonymousAll(outputs) == [] <==> outputs == [];
    if again.value.text != "" && outputs == [] {
      outputs := PushMessage(outputs, again.value.text);
    }
    r := Success(TurnOutcome(again.value.text, outputs, again.value.usage, reason));
  }

  /** The stream of a turn closes with the calls its client is asked to run. */
  ghost predicate ClosesWithCalls(emitted: seq<ResponsesStreamEvent>, created: ResponseObject, req: TurnRequest,
                                  env: Environment)
  {
    var first := CollectPrompt(env.first);
    && first.Success?
    && var calls := ClientCalls(req, env, first.value.text);
       exists n :: 0 <= n <= |emitted| && StreamsCalls(emitted[n..], created, env.loop.lib, calls)
  }

  /** What the events of a whole turn say of the message and of closed items: the
      indexes are right exactly for a run that fits, also when it fails; and so is the
      message lifecycle for a run in step, or as far as it got. */
  ghost predicate RightlyStreamed(emitted: seq<ResponsesStreamEvent>, req: TurnRequest, env: Environment) {
    var live, tools, reasoning := Live(EventsOf(env.first)), env.streamAgentTools, req.includeReasoning;
    && (IndicesRight(emitted) <==> IndexesFit(live, tools, reasoning))
    && (if CollectPrompt(env.first).Success?
        then Faithful(emitted, Deltas(live), FirstText(env)) <==> InStep(live, tools, reasoning)
        else FaithfulSoFar(emitted, Deltas(live)) <==> IndexesFit(live, tools, reasoning))
    && Dones(emitted) == StreamDones(req, env)
    && Addeds(emitted) == Announced(live, tools, reasoning) + StreamedCalls(req, env) && Paired(emitted)
    && Arguments(emitted) == StreamedArguments(req, env)
  }

  lemma WordlessAround(a: seq<ResponsesStreamEvent>, b: seq<ResponsesStreamEvent>, deltas: seq<string>, text: string)
    ensures Wordless(b) ==> (Faithful(a + b, deltas, text) <==> Faithful(a, deltas, text))
    ensures Wordless(a) ==> (Faithful(a + b, deltas, text) <==> Faithful(b, deltas, text))
  {
    hide IndicesRight, AllMidStream, TextDeltas, MessageSteps, Lifecycle;
    Joined(a, b);
    assert MessageSteps(a) + [] == MessageSteps(a);
    assert [] + MessageSteps(b) == MessageSteps(b);
  }

  lemma {:induction false} RightWithCalls(drained: seq<ResponsesStreamEvent>, calls: seq<ResponsesStreamEvent>,
                       req: TurnRequest, env: Environment)
    requires CollectPrompt(env.first).Success? && Wordless(calls)
    requires exists id :: Finished(drained, id, FirstText(env), Live(EventsOf(env.first)),
                                   env.streamAgentTools, req.includeReasoning)
    requires CallsTold(calls, env.loop.lib, ClientCalls(req, env, FirstText(env)), 0)
    ensures RightlyStreamed(drained + calls, req, env)
    ensures TextDeltas(drained + calls) == Deltas(Live(EventsOf(env.first))) && AllMidStream(drained + calls)
  {
    hide Faithful, InStep, Dones, ToolDones, SlotDone, CallDones, Live, Deltas, TextDeltas, IndicesRight, IndexesFit;
    hide AllMidStream, MessageSteps, SideSteps, Collect, ClientCalls, Addeds, Arguments, Paired, AllArguments;
    hide Announced;
    PairedIfBoth(drained, calls);
    var deltas := Deltas(Live(EventsOf(env.first)));
    WordlessAround(drained, calls, deltas, FirstText(env));
    Joined(drained, calls);
    assert deltas + [] == deltas;
    DonesJoined(req, env);
  }

  lemma PairedIfBoth(a: seq<ResponsesStreamEvent>, b: seq<ResponsesStreamEvent>)
    ensures Paired(a) && Paired(b) ==> Paired(a + b)
  {
    if Paired(a) && Paired(b) {
      PairedJoined(a, b);
    }
  }

  lemma DonesJoined(req: TurnRequest, env: Environment)
    requires CollectPrompt(env.first).Success?
    ensures var live := Live(EventsOf(env.first));
      StreamDones(req, env)
      == (ToolDones(live, env.streamAgentTools)
          + SlotDone(live, env.streamAgentTools, req.includeReasoning, FirstText(env)))
         + CallDones(env.loop.lib, ClientCalls(req, env, FirstText(env)), 0)
  {
    hide Live, ToolDones, SlotDone, CallDones, ClientCalls, Collect;
  }

  lemma {:induction false} RightWhenFailing(drained: seq<ResponsesStreamEvent>, req: TurnRequest, env: Environment)
    requires CollectPrompt(env.first).Failure?
    requires exists id :: Unfinished(drained, id, Live(EventsOf(env.first)), env.streamAgentTools, req.includeReasoning)
    ensures RightlyStreamed(drained, req, env)
    ensures TextDeltas(drained) == Deltas(Live(EventsOf(env.first))) && AllMidStream(drained)
  {
    hide FaithfulSoFar, Dones, ToolDones, Live, Deltas, TextDeltas, IndicesRight, IndexesFit, AllMidStream, Collect;
    hide Addeds, Arguments, Paired, Announced;
  }

  lemma NothingStreamed(req: TurnRequest, env: Environment)
    requires env.first.Failure?
    ensures RightlyStreamed([], req, env)
    ensures TextDeltas([]) == Deltas(Live(EventsOf(env.first))) && AllMidStream([])
  {
    Silence();
    hide TextDeltas, MessageSteps, Dones, Addeds, Arguments, Paired, IndicesRight, AllMidStream;
    NothingOpen("");
    assert Live([]) == [] && Deltas([]) == [];
  }

  method ExecuteResponsesTurn(req: TurnRequest, env: Environment, created: ResponseObject, streaming: bool)
    returns (r: Result<TurnOutcome, string>, emitted: seq<ResponsesStreamEvent>)
    requires created.output == []
    ensures SameOutcome(r, Turn(req, env, !streaming && req.includeReasoning))
    ensures AllMidStream(emitted)
    ensures streaming ==> TextDeltas(emitted) == Deltas(Live(EventsOf(env.first)))
    ensures streaming && r.Success? ==> ClosesWithCalls(emitted, created, req, env)
    ensures streaming ==> RightlyStreamed(emitted, req, env)
    ensures !streaming ==> emitted == []
  {
    hide StreamsCalls, ClientCalls, AfterTools, AfterSchema, AgentItems, AllMidStream, TextDeltas, CallsTold;
    hide Finished, Unfinished, RightlyStreamed, Wordless, Deltas;
    assert AllMidStream([]) by { Silence(); }
    emitted := [];
    if env.first.Failure? {
      NothingStreamed(req, env);
      return Failure(env.first.error), [];
    }
    var drained;
    if streaming {
      drained, emitted := DrainStream(env.first.value, created, env.streamAgentTools, req.includeReasoning);
    } else {
      drained := DrainSync(env.first.value, env.streamAgentTools, req.includeReasoning);
    }
    if drained.Failure? {
      if streaming {
        assert EventsOf(env.first) == env.first.value;
        RightWhenFailing(emitted, req, env);
      }
      return Failure(drained.error), emitted;
    }
    var handled, more := HandleTools(req, env, drained.value, created, streaming);
    if streaming {
      assert EventsOf(env.first) == env.first.value;
      assert FirstText(env) == drained.value.text;
      RightWithCalls(emitted, more, req, env);
    }
    assert (emitted + more)[|emitted|..] == more;
    emitted := emitted + more;
    if handled.Failure? {
      return Failure(handled.error), emitted;
    }
    r := CheckSchema(req, env, handled.value);
  }

  // ---- The two ways of answering ----

  /** run_sync. */
  method RunSync(req: TurnRequest, env: Environment, id: string, model: string, now: int)
    returns (r: Result<ResponseObject, string>)
    ensures var final := FinalResponse(req, env, id, model, req.includeReasoning);
      && (final.Failure? ==> r == Failure(final.error))
      && (final.Success? ==> r.Success? && Comparable(r.value) == final.value && r.value.createdAt == now)
  {
    if env.enrichError.Some? {
      return Failure(env.enrichError.value);
    }
    var outcome, ignored := ExecuteResponsesTurn(req, env, ResponseCreated(id, model, now), false);
    if outcome.Failure? {
      return Failure(outcome.error);
    }
    var response := CompletedResponse(ResponseCreated(id, model, now), outcome.value.text, outcome.value.usage,
                                      outcome.value.incompleteReason.Some?);
    response := response.(output := outcome.value.outputs);
    response := response.(metadata := req.metadata);
    response := response.(previousResponseId := req.previousResponseId);
    if outcome.value.incompleteReason.Some? {
      response := response.(incompleteDetails := Some(outcome.value.incompleteReason.value.AsString()));
    }
    r := Success(response);
  }

  /** Created, in progress, protocol events, then one completed or failed event. */
  ghost predicate ResponseStreamShape(emitted: seq<ResponsesStreamEvent>) {
    && |emitted| >= 3
    && emitted[0].Created? && emitted[1].InProgress?
    && (emitted[|emitted| - 1].Completed? || emitted[|emitted| - 1].FailedResponse?)
    && AllMidStream(emitted[2..|emitted| - 1])
  }

  /** run_stream: the same response closes the stream, or the same error. */
  method RunStream(req: TurnRequest, env: Environment, id: string, model: string, now: int)
    returns (emitted: seq<ResponsesStreamEvent>)
    ensures ResponseStreamShape(emitted)
    ensures var opening := ResponseCreated(id, model, now).(metadata := req.metadata,
                                                            previousResponseId := req.previousResponseId);
      && emitted[0] == Created(opening) && emitted[1] == InProgress(opening)
      && opening == ResponseObject(id, now, model, "in_progress", [], None, None, req.metadata,
                                   req.previousResponseId)
      && (emitted[|emitted| - 1].Completed? ==>
            ClosesWithCalls(emitted[2..|emitted| - 1], opening, req, env))
    ensures env.enrichError.None? ==> RightlyStreamed(emitted, req, env)
    ensures emitted[|emitted| - 1].Completed? ==>
      (DonesAgree(Dones(emitted), emitted[|emitted| - 1].response.output) <==> InPlace(req, env))
    ensures env.enrichError.None? ==> TextDeltas(emitted) == Deltas(Live(EventsOf(env.first)))
    ensures var final := FinalResponse(req, env, id, model, false);
      var opening := emitted[0].response;
      var last := emitted[|emitted| - 1];
      && (final.Failure? ==>
            && last.FailedResponse? && last.error == final.error
            && last.response == opening.(status := if env.enrichError.Some? then "in_progress" else "failed"))
      && (final.Success? ==>
            last.Completed? && Comparable(last.response) == final.value && last.response.createdAt == now)
  {
    var response := ResponseCreated(id, model, now);
    response := response.(metadata := req.metadata, previousResponseId := req.previousResponseId);
    hide ClosesWithCalls, RightlyStreamed, TextDeltas, Dones, Deltas, Live, TextOf, Turn, SanitizeAgentName;
    hide DonesAgree, InPlace;
    var opening := [Created(response), InProgress(response)];
    if env.enrichError.Some? {
      emitted := opening + [FailedResponse(response, env.enrichError.value)];
      assert emitted[2..|emitted| - 1] == [];
      return;
    }
    var outcome, middle := ExecuteResponsesTurn(req, env, response, true);
    var closing;
    if outcome.Success? {
      response := response.(output := outcome.value.outputs);
      TextLeavesOutput(req, env, false);
      response := CompletedResponse(response, outcome.value.text, outcome.value.usage,
                                    outcome.value.incompleteReason.Some?);
      if outcome.value.incompleteReason.Some? {
        response := response.(incompleteDetails := Some(outcome.value.incompleteReason.value.AsString()));
      }
      closing := Completed(response);
    } else {
      response := response.(status := "failed");
      closing := FailedResponse(response, outcome.error);
    }
    emitted := opening + middle + [closing];
    assert emitted[2..|emitted| - 1] == middle;
    Around(opening, middle, closing, req, env);
    if outcome.Success? {
      InPlaceExactly(req, env);
      AgreeAnonymous(Dones(emitted), response.output, Turn(req, env, false).value.outputs);
    }
  }

  /** An event that says nothing of messages and items. */
  predicate Frame(e: ResponsesStreamEvent) {
    e.Created? || e.InProgress? || e.Completed? || e.FailedResponse?
  }

  lemma FrameIsQuiet(e: ResponsesStreamEvent)
    requires Frame(e)
    ensures StepOf(e) == [] && DoneOf(e) == [] && AddedOf(e) == [] && ArgumentsOf(e) == []
    ensures !e.OutputTextDelta? && IndexRight(e) && Paired([e])
  {
    PairedOne(e);
  }

  lemma {:induction false} Framing(frame: seq<ResponsesStreamEvent>)
    requires forall e :: e in frame ==> Frame(e)
    ensures TextDeltas(frame) == [] && Dones(frame) == [] && MessageSteps(frame) == [] && IndicesRight(frame)
    ensures Addeds(frame) == [] && Arguments(frame) == [] && Paired(frame)
  {
    hide *;
    Silence();
    if frame != [] {
      var front, last := frame[..|frame| - 1], frame[|frame| - 1];
      Framing(front);
      assert frame == front + [last];
      assert last in frame && Frame(last);
      Emit(front, last);
      FrameIsQuiet(last);
      PairedJoined(front, [last]);
    }
  }

  /** Opening and closing events change nothing that is said of a turn's events. */
  lemma {:induction false} Around(opening: seq<ResponsesStreamEvent>, middle: seq<ResponsesStreamEvent>,
                                  closing: ResponsesStreamEvent, req: TurnRequest, env: Environment)
    requires |opening| == 2 && Frame(opening[0]) && Frame(opening[1]) && Frame(closing)
    ensures var all := opening + middle + [closing];
      && TextDeltas(all) == TextDeltas(middle)
      && (RightlyStreamed(middle, req, env) ==>
            RightlyStreamed(all, req, env) && Dones(all) == StreamDones(req, env))
  {
    hide StreamDones, InStep, IndexesFit, Live, Deltas, Faithful, FaithfulSoFar, TextDeltas, Dones, MessageSteps;
    hide IndicesRight, AllMidStream, SideSteps, Collect, Addeds, Arguments, Paired, Announced, StreamedCalls;
    hide StreamedArguments;
    PairedIfBoth(opening, middle);
    PairedIfBoth(opening + middle, [closing]);
    Framing(opening);
    Framing([closing]);
    Joined(opening, middle);
    Joined(opening + middle, [closing]);
    assert [] + TextDeltas(middle) + [] == TextDeltas(middle);
    assert [] + Dones(middle) + [] == Dones(middle);
    assert [] + Addeds(middle) + [] == Addeds(middle);
    assert [] + Arguments(middle) + [] == Arguments(middle);
    FaithfulAround(opening, middle, [closing], Deltas(Live(EventsOf(env.first))), FirstText(env));
  }

  lemma {:induction false} FaithfulAround(a: seq<ResponsesStreamEvent>, b: seq<ResponsesStreamEvent>,
                                          c: seq<ResponsesStreamEvent>, deltas: seq<string>, text: string)
    requires MessageSteps(a) == [] && MessageSteps(c) == [] && IndicesRight(a) && IndicesRight(c)
    ensures Faithful(a + b + c, deltas, text) <==> Faithful(b, deltas, text)
    ensures FaithfulSoFar(a + b + c, deltas) <==> FaithfulSoFar(b, deltas)
  {
    hide IndicesRight, MessageSteps, Lifecycle, OpenLifecycle;
    Joined(a, b);
    Joined(a + b, c);
    assert [] + MessageSteps(b) + [] == MessageSteps(b);
  }
}
