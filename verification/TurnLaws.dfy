/** What holds of every turn, answered at once or streamed. */
module TurnLaws {
  import opened Wrappers
  import opened Events
  import opened Json
  import opened Items
  import opened Drain
  import opened Emitted
  import opened StreamSpec
  import opened TurnSpec
  import TC = ToolCalls
  import TL = ToolLoop

  /** A turn that ends with text always leaves an output item, on every path: so
      filling in a message before or after the outputs are set is the same. */
  lemma TextLeavesOutput(req: TurnRequest, env: Environment, reasoning: bool)
    ensures var t := Turn(req, env, reasoning);
      t.Success? && t.value.text != "" ==> t.value.outputs != []
  {
    hide TC.AcceptedCalls, AgentItems, Collect;
    var c := CollectPrompt(env.first);
    if c.Success? {
      var items := AgentItems(Live(EventsOf(env.first)), env.streamAgentTools, reasoning);
      var o := AfterTools(req, env, c.value, items);
      if o.Success? && o.value.text != "" {
        ToolsLeaveOutput(req, env, c.value, items);
      }
    }
  }

  lemma ToolsLeaveOutput(req: TurnRequest, env: Environment, c: Collected, items: seq<OutputItem>)
    ensures var o := AfterTools(req, env, c, items);
      o.Success? && o.value.text != "" ==> o.value.outputs != []
  {
    hide TC.AcceptedCalls;
    var tools := TC.FilterTools(req.tools, req.choice);
    if tools != [] && req.mode.Server? {
      var run := TL.RunFrom(env.loop, env.config, tools, req.choice, 0, c.text);
      if run.Success? {
        TL.RunAccounting(env.loop, env.config, tools, req.choice, 0, c.text);
        var calls := TL.CallsIn(run.value.executed) + run.value.pending;
        assert run.value.hitLimit ==> |TL.CallItems(env.loop.lib, calls)| > 0;
      }
    }
  }

  // ---- Where the two agree ----

  function ReasoningItems(items: seq<OutputItem>): nat {
    if items == [] then 0 else
      ReasoningItems(items[..|items| - 1]) + (if items[|items| - 1].Reasoning? then 1 else 0)
  }

  lemma {:induction false} ReasoningAppend(a: seq<OutputItem>, b: seq<OutputItem>)
    requires forall x :: x in b ==> !x.Reasoning?
    ensures ReasoningItems(a + b) == ReasoningItems(a)
  {
    if b == [] {
      assert a + b == a;
    } else {
      var front := b[..|b| - 1];
      assert (a + b)[..|a + b| - 1] == a + front;
      ReasoningAppend(a, front);
      assert b[|b| - 1] in b;
    }
  }

  lemma {:induction false} ReasoningReplace(items: seq<OutputItem>, at: nat, item: OutputItem)
    requires at < |items| && !items[at].Reasoning? && !item.Reasoning?
    ensures ReasoningItems(items[at := item]) == ReasoningItems(items)
  {
    var n := |items| - 1;
    if at < n {
      assert items[at := item][..n] == items[..n][at := item];
      ReasoningReplace(items[..n], at, item);
    } else {
      assert items[at := item][..n] == items[..n];
    }
  }

  /** Thoughts show up as items exactly when they are asked for. */
  lemma {:induction false} AgentItemsReasoning(events: seq<PromptStreamEvent>, tools: bool)
    ensures ReasoningItems(AgentItems(events, tools, false)) == 0
    ensures NoReasoning(events) <==> ReasoningItems(AgentItems(events, tools, true)) == 0
    ensures NoReasoning(events) ==> AgentItems(events, tools, true) == AgentItems(events, tools, false)
  {
    if events != [] {
      var front, last := events[..|events| - 1], events[|events| - 1];
      AgentItemsReasoning(front, tools);
      assert events == front + [last];
      ReadMore(front, last, tools, true);
      NoReasoningMore(front, last);
      if last.AgentToolCall? && tools {
        WithToolReasoning(AgentItems(front, tools, false), last.tool);
        WithToolReasoning(AgentItems(front, tools, true), last.tool);
      } else if last.ReasoningDelta? {
        var before := AgentItems(front, tools, true);
        assert (before + [ReasoningItem("", last.thought)])[..|before|] == before;
      }
    }
  }

  lemma {:induction false} WithToolReasoning(items: seq<OutputItem>, ev: AgentToolEvent)
    ensures ReasoningItems(WithTool(items, ev)) == ReasoningItems(items)
  {
    var known := LastTool(items, ev.toolCallId);
    if ev.kind.Updated? && known.Some? {
      ReasoningReplace(items, known.value, ToolItem(ev, ""));
    } else {
      ReasoningAppend(items, [ToolItem(ev, "")]);
    }
  }

  lemma {:induction false} ToolsKeepReasoning(req: TurnRequest, env: Environment, c: Collected, a: seq<OutputItem>,
                                              b: seq<OutputItem>)
    ensures var x, y := AfterTools(req, env, c, a), AfterTools(req, env, c, b);
      && (x.Failure? ==> x == y)
      && (x.Success? ==> y.Success? && y.value == x.value.(outputs := y.value.outputs)
                         && ReasoningItems(x.value.outputs) == ReasoningItems(a))
  {
    hide TC.AcceptedCalls, TL.RunFrom, TL.CallsIn, ReasoningItems;
    var tools := TC.FilterTools(req.tools, req.choice);
    ReasoningAppend(a, MessageOf(c.text));
    if tools != [] && req.mode.Client? {
      var calls := TC.AcceptedCalls(env.loop.lib, c.text, tools, req.choice, env.clientCallId);
      if calls.Success? {
        ReasoningAppend(a, TL.CallItems(env.loop.lib, calls.value));
      }
    } else if tools != [] {
      var run := TL.RunFrom(env.loop, env.config, tools, req.choice, 0, c.text);
      if run.Success? {
        ReasoningAppend(a, TL.ReportedItems(env.loop.lib, run.value));
      }
    }
  }

  /** A turn succeeds or fails regardless of the agent items, adds no reasoning
      item of its own, and keeps those it is given. */
  lemma {:induction false} TurnKeepsReasoning(req: TurnRequest, env: Environment, c: Collected, a: seq<OutputItem>,
                                              b: seq<OutputItem>)
    ensures TurnFrom(req, env, c, a).Success? <==> TurnFrom(req, env, c, b).Success?
    ensures TurnFrom(req, env, c, a).Failure? ==> TurnFrom(req, env, c, a) == TurnFrom(req, env, c, b)
    ensures TurnFrom(req, env, c, a).Success? ==>
              ReasoningItems(TurnFrom(req, env, c, a).value.outputs) == ReasoningItems(a)
  {
    hide AfterTools, Collect;
    ToolsKeepReasoning(req, env, c, a, b);
    ToolsKeepReasoning(req, env, c, b, a);
    var again := CollectPrompt(env.retry);
    if again.Success? {
      ReasoningAppend([], MessageOf(again.value.text));
      assert [] + MessageOf(again.value.text) == MessageOf(again.value.text);
    }
  }

  /** Answered at once or streamed, the request ends in the same response (status,
      outputs, usage, incomplete reason, metadata), up to generated ids and
      timestamps, or in the same error, exactly unless reasoning was asked for and
      the agent did think before a turn that succeeds. */
  lemma SyncAndStreamAgree(req: TurnRequest, env: Environment, id: string, model: string)
    ensures var sync := FinalResponse(req, env, id, model, req.includeReasoning);
            var streamed := FinalResponse(req, env, id, model, false);
      && (sync.Success? <==> streamed.Success?)
      && (sync == streamed <==> sync.Failure? || !req.includeReasoning || NoReasoning(Live(EventsOf(env.first))))
  {
    hide TC.AcceptedCalls, TL.RunFrom, Collect, AgentItems, TurnFrom;
    var c := CollectPrompt(env.first);
    if req.includeReasoning && env.enrichError.None? && c.Success? {
      var live := Live(EventsOf(env.first));
      var a, b := AgentItems(live, env.streamAgentTools, true), AgentItems(live, env.streamAgentTools, false);
      AgentItemsReasoning(live, env.streamAgentTools);
      TurnKeepsReasoning(req, env, c.value, a, b);
      TurnKeepsReasoning(req, env, c.value, b, a);
    }
  }

  function Reply(text: string): Result<seq<PromptStreamEvent>, string> {
    Success([Done(Stop, text, NO_USAGE)])
  }

  lemma ReplyCollects(text: string)
    ensures Live(Reply(text).value) == [] && CollectPrompt(Reply(text)) == Success(Collected(text, NO_USAGE, Stop))
  {
  }

  /** One thought is enough: asked for, it is in the response answered at once and
      not in the streamed one. */
  lemma ThoughtShownOnce(req: TurnRequest, env: Environment, thought: string, id: string, model: string)
    requires req.tools == [] && req.schema.None? && req.includeReasoning && env.enrichError.None?
    requires env.first == Success([ReasoningDelta(thought), Done(Stop, "", NO_USAGE)])
    ensures var sync, streamed := FinalResponse(req, env, id, model, true), FinalResponse(req, env, id, model, false);
      && sync.Success? && sync.value.output == [ReasoningItem("", thought)]
      && streamed.Success? && streamed.value.output == []
  {
    var events := env.first.value;
    assert events[1..] == [Done(Stop, "", NO_USAGE)];
    assert Live(events[1..]) == [];
    assert Live(events) == [ReasoningDelta(thought)];
    assert TC.FilterTools(req.tools, req.choice) == [];
    var live, item := [ReasoningDelta(thought)], ReasoningItem("", thought);
    assert live[..0] == [];
    assert AgentItems(live, env.streamAgentTools, false) == [];
    assert AgentItems(live, env.streamAgentTools, true) == [] + [item];
    assert [item] + MessageOf("") == [item] && [] + MessageOf("") == [];
  }

  /** The first text was reported, fails the check, and stays: the text that passed
      is nowhere in the outputs. */
  lemma RetryNotDelivered(req: TurnRequest, env: Environment, schema: Json)
    requires req.tools == [] && req.schema == Some(schema) && env.first == Reply("no") && env.retry == Reply("yes")
    requires env.schemaError("no", schema).Some? && env.schemaError("yes", schema).None?
    ensures var o := Turn(req, env, req.includeReasoning);
      o.Success? && o.value.text == "yes" && o.value.outputs == [MessageText("no", "")]
  {
    ReplyCollects("no");
    ReplyCollects("yes");
    assert TC.FilterTools(req.tools, req.choice) == [];
    assert [] + MessageOf("no") == MessageOf("no");
  }

  /** The turn ends on plain text: no tools, no calls for the client, or a server
      loop that came to an end of its own. */
  predicate PlainEnd(req: TurnRequest, env: Environment, text: string) {
    var tools := TC.FilterTools(req.tools, req.choice);
    || tools == []
    || (if req.mode.Client? then ClientCalls(req, env, text) == []
        else
          var run := TL.RunFrom(env.loop, env.config, tools, req.choice, 0, text);
          run.Success? && !run.value.hitLimit)
  }

  function FirstText(env: Environment): string {
    var c := CollectPrompt(env.first);
    if c.Success? then c.value.text else ""
  }

  /** Structured output, with or without tools: the answer's last item is the text
      that passed the schema check exactly when the first text passed and the turn
      ended on it, or it failed and nothing had been reported yet. */
  lemma {:induction false} ValidatedTextIsDelivered(req: TurnRequest, env: Environment, reasoning: bool)
    requires Turn(req, env, reasoning).Success? && Turn(req, env, reasoning).value.text != ""
    ensures var o := Turn(req, env, reasoning).value;
      var items := AgentItems(Live(EventsOf(env.first)), env.streamAgentTools, reasoning);
      var first := AfterTools(req, env, CollectPrompt(env.first).value, items).value;
      && SchemaOk(req, env, o.text)
      && ((o.outputs != [] && o.outputs[|o.outputs| - 1] == MessageText(o.text, ""))
          <==> if SchemaOk(req, env, first.text) then PlainEnd(req, env, FirstText(env)) else first.outputs == [])
  {
    hide AgentItems, Collect, Live, AfterTools, PlainEnd, AfterSchema, SchemaOk;
    var items := AgentItems(Live(EventsOf(env.first)), env.streamAgentTools, reasoning);
    AgentItemsNotMessages(Live(EventsOf(env.first)), env.streamAgentTools, reasoning);
    LastItem(req, env, CollectPrompt(env.first).value, items);
    AfterRetry(req, env, AfterTools(req, env, CollectPrompt(env.first).value, items).value);
  }

  lemma AfterRetry(req: TurnRequest, env: Environment, first: TurnOutcome)
    requires AfterSchema(req, env, first).Success?
    ensures var o := AfterSchema(req, env, first).value;
      && SchemaOk(req, env, o.text)
      && (SchemaOk(req, env, first.text) ==> o == first)
      && (!SchemaOk(req, env, first.text) ==>
            o.text != first.text && o.outputs == if first.outputs == [] then MessageOf(o.text) else first.outputs)
  {
  }

  /** What tool handling leaves last is a message exactly for a plain end with text,
      and then it is that text. */
  lemma LastItem(req: TurnRequest, env: Environment, c: Collected, items: seq<OutputItem>)
    requires AfterTools(req, env, c, items).Success? && forall x :: x in items ==> !x.Message?
    ensures var o := AfterTools(req, env, c, items).value;
      if PlainEnd(req, env, c.text) && o.text != "" then
        o.outputs != [] && o.outputs[|o.outputs| - 1] == MessageText(o.text, "")
      else o.outputs == [] || !o.outputs[|o.outputs| - 1].Message?
  {
    hide TC.AcceptedCalls, TL.RunFrom, TL.CallsIn;
    var tools := TC.FilterTools(req.tools, req.choice);
    var o := AfterTools(req, env, c, items).value;
    assert items + [] == items;
    if tools != [] && req.mode.Server? {
      var run := TL.RunFrom(env.loop, env.config, tools, req.choice, 0, c.text).value;
      TL.RunAccounting(env.loop, env.config, tools, req.choice, 0, c.text);
      assert run.pending != [] ==> TL.CallsIn(run.executed) + run.pending != [];
    }
  }

  lemma {:induction false} AgentItemsNotMessages(events: seq<PromptStreamEvent>, tools: bool, reasoning: bool)
    ensures forall x :: x in AgentItems(events, tools, reasoning) ==> !x.Message?
  {
    if events != [] {
      AgentItemsNotMessages(events[..|events| - 1], tools, reasoning);
    }
  }

  // ---- Closed items and the completed response ----

  /** The calls found in the first text. */
  function FoundCalls(req: TurnRequest, env: Environment, text: string): seq<TC.FunctionCall> {
    var tools := TC.FilterTools(req.tools, req.choice);
    if tools == [] then []
    else if req.mode.Client? then ClientCalls(req, env, text)
    else
      var calls := TL.CallsAt(env.loop, 0, text, tools, req.choice);
      if calls.Success? then calls.value else []
  }

  function CallDones(lib: JsonLibrary, calls: seq<TC.FunctionCall>, from: nat): (r: seq<ItemAt>)
    ensures |r| == |calls|
    ensures forall k :: 0 <= k < |r| ==> r[k] == ItemAt(from + k, TL.CallItems(lib, calls)[k])
  {
    seq(|calls|, k requires 0 <= k < |calls| => ItemAt(from + k, TL.CallItems(lib, calls)[k]))
  }

  /** The arguments of one call as they are streamed: in one piece if there are any,
      then as a whole. */
  function CallArguments(at: nat, arguments: string): seq<ArgumentStep> {
    (if arguments == "" then [] else [Piece(at, arguments)]) + [Whole(at, arguments)]
  }

  function AllArguments(lib: JsonLibrary, calls: seq<TC.FunctionCall>, from: nat): seq<ArgumentStep> {
    if calls == [] then [] else
      var n := |calls| - 1;
      AllArguments(lib, calls[..n], from) + CallArguments(from + n, lib.render(calls[n].arguments))
  }

  /** What the events of streamed calls say: each is announced, given its arguments
      and closed, one after the other, at its own index. */
  ghost predicate CallsTold(emitted: seq<ResponsesStreamEvent>, lib: JsonLibrary, calls: seq<TC.FunctionCall>,
                            from: nat) {
    && Addeds(emitted) == CallDones(lib, calls, from) && Paired(emitted)
    && Arguments(emitted) == AllArguments(lib, calls, from)
    && Dones(emitted) == CallDones(lib, calls, from)
  }

  /** The client calls a streamed turn announces, behind all that the agent's own
      events announce. */
  function StreamedCalls(req: TurnRequest, env: Environment): seq<ItemAt> {
    if CollectPrompt(env.first).Failure? then []
    else CallDones(env.loop.lib, ClientCalls(req, env, FirstText(env)), 0)
  }

  function StreamedArguments(req: TurnRequest, env: Environment): seq<ArgumentStep> {
    if CollectPrompt(env.first).Failure? then []
    else AllArguments(env.loop.lib, ClientCalls(req, env, FirstText(env)), 0)
  }

  /** Every item a streamed turn closes, with the index it is closed at. */
  function StreamDones(req: TurnRequest, env: Environment): seq<ItemAt> {
    var live := Live(EventsOf(env.first));
    ToolDones(live, env.streamAgentTools)
    + if CollectPrompt(env.first).Failure? then [] else
        SlotDone(live, env.streamAgentTools, req.includeReasoning, FirstText(env))
        + CallDones(env.loop.lib, ClientCalls(req, env, FirstText(env)), 0)
  }

  /** Every closed item is what the response has at its index, up to ids. */
  ghost predicate DonesAgree(dones: seq<ItemAt>, output: seq<OutputItem>) {
    forall d :: d in dones ==> d.at < |output| && Anonymous(output[d.at]) == d.item
  }

  /** The first slot ends up as the first agent item; or there is no agent item, and
      the text stands there and is all there is. */
  predicate SlotInPlace(slot: OutputItem, items: seq<OutputItem>, plain: bool) {
    if items != [] then slot == items[0] else slot == MessageText("", "") && plain
  }

  /** No shown tool is later updated with something new, the first slot is in place,
      and calls for the client come with no agent item. */
  predicate InPlace(req: TurnRequest, env: Environment) {
    var live, text := Live(EventsOf(env.first)), FirstText(env);
    var items := AgentItems(live, env.streamAgentTools, false);
    var slot := FirstSlot(live, env.streamAgentTools, req.includeReasoning);
    && (env.streamAgentTools ==> ToolsSteady(live))
    && (Deltas(live) != [] ==>
          slot.Some? && SlotInPlace(slot.value, items, text != "" && FoundCalls(req, env, text) == []))
    && (ClientCalls(req, env, text) != [] ==> items == [])
  }

  lemma AgreeAnonymous(dones: seq<ItemAt>, a: seq<OutputItem>, b: seq<OutputItem>)
    requires AnonymousAll(a) == b
    ensures DonesAgree(dones, a) <==> DonesAgree(dones, b)
  {
    forall i | 0 <= i < |a| ensures Anonymous(a[i]) == Anonymous(b[i]) {}
  }

  predicate Pending(item: OutputItem) {
    item.FunctionCall? && item.status == "in_progress"
  }

  lemma ToolItemPending(ev: AgentToolEvent)
    ensures Pending(ToolItem(ev, "")) && Anonymous(ToolItem(ev, "")) == ToolItem(ev, "")
  {
    hide SanitizeAgentName;
  }

  /** What agent events leave and close: tool items in progress, each within the
      items kept. */
  lemma {:induction false} ToolsPending(events: seq<PromptStreamEvent>, tools: bool)
    ensures forall x :: x in AgentItems(events, tools, false) ==> Pending(x) && Anonymous(x) == x
    ensures forall d :: d in ToolDones(events, tools) ==> d.at < |AgentItems(events, tools, false)| && Pending(d.item)
  {
    if events != [] {
      var front, last := events[..|events| - 1], events[|events| - 1];
      ToolsPending(front, tools);
      if last.AgentToolCall? {
        ToolItemPending(last.tool);
      }
      hide Pending, PlaceOf, ToolItem;
      assert forall d :: d in ToolDones(events, tools) ==>
        d in ToolDones(front, tools) || d in ToolDoneOf(AgentItems(front, tools, false), last, tools);
    }
  }

  lemma {:induction false} SlotShape(events: seq<PromptStreamEvent>, tools: bool, reasoning: bool)
    ensures var slot := FirstSlot(events, tools, reasoning);
      && (slot.Some? ==> slot.value == MessageText("", "") || slot.value.Reasoning? || Pending(slot.value))
      && (slot.Some? && slot.value.FunctionCall? ==> AgentItems(events, tools, false) != [])
      && (Deltas(events) != [] ==> slot.Some?)
  {
    if events != [] {
      var last := events[|events| - 1];
      SlotShape(events[..|events| - 1], tools, reasoning);
      if last.AgentToolCall? {
        ToolItemPending(last.tool);
      }
      hide Pending, PlaceOf, ToolItem;
    }
  }

  /** How the outputs of a turn are built on the agent items. */
  ghost predicate BuiltOn(req: TurnRequest, env: Environment, text: string, items: seq<OutputItem>,
                          outputs: seq<OutputItem>)
  {
    && |outputs| >= |items| && outputs[..|items|] == items
    && (items == [] ==>
          && (outputs == [] ==> text == "")
          && (outputs != [] && outputs[0] == MessageText(text, "") <==> text != "" && FoundCalls(req, env, text) == [])
          && (outputs != [] ==> outputs[0].Message? || (outputs[0].FunctionCall? && outputs[0].status == "completed")))
    && (ClientCalls(req, env, text) != []
      ==> outputs == items + TL.CallItems(env.loop.lib, ClientCalls(req, env, text)))
  }

  lemma ToolsBuild(req: TurnRequest, env: Environment, c: Collected, items: seq<OutputItem>)
    requires AfterTools(req, env, c, items).Success?
    ensures BuiltOn(req, env, c.text, items, AfterTools(req, env, c, items).value.outputs)
  {
    hide TC.AcceptedCalls, TL.RunFrom;
    var tools := TC.FilterTools(req.tools, req.choice);
    var o := AfterTools(req, env, c, items).value;
    if tools != [] && req.mode.Server? {
      var run := TL.RunFrom(env.loop, env.config, tools, req.choice, 0, c.text).value;
      ServerReports(req, env, c.text, tools);
      var more := TL.ReportedItems(env.loop.lib, run);
      assert o.outputs == items + more;
      assert (items + more)[..|items|] == items;
      assert items == [] ==> o.outputs == more;
    } else {
      var more := o.outputs[|items|..];
      assert o.outputs == items + more;
      assert items == [] ==> o.outputs == more;
    }
  }

  lemma {:induction false} ServerReports(req: TurnRequest, env: Environment, text: string, tools: seq<TC.FunctionTool>)
    requires tools != [] && tools == TC.FilterTools(req.tools, req.choice) && req.mode.Server?
    requires TL.RunFrom(env.loop, env.config, tools, req.choice, 0, text).Success?
    ensures var run := TL.RunFrom(env.loop, env.config, tools, req.choice, 0, text).value;
      var more := TL.ReportedItems(env.loop.lib, run);
      && (more == [] ==> text == "")
      && (more != [] && more[0] == MessageText(text, "") <==> text != "" && FoundCalls(req, env, text) == [])
      && (more != [] ==> more[0].Message? || (more[0].FunctionCall? && more[0].status == "completed"))
  {
    hide TC.AcceptedCalls, TL.RoundAnswers, TL.RunFrom;
    var run := TL.RunFrom(env.loop, env.config, tools, req.choice, 0, text).value;
    TL.FirstRound(env.loop, env.config, tools, req.choice, text);
    var calls := TL.CallsIn(run.executed) + run.pending;
    assert calls != [] ==> TL.ReportedItems(env.loop.lib, run)[0] == TL.CallItems(env.loop.lib, calls)[0];
  }

  lemma TurnBuilds(req: TurnRequest, env: Environment)
    requires Turn(req, env, false).Success?
    ensures BuiltOn(req, env, FirstText(env), AgentItems(Live(EventsOf(env.first)), env.streamAgentTools, false),
                    Turn(req, env, false).value.outputs)
  {
    hide AfterTools, Collect, FoundCalls, ClientCalls, AgentItems, TL.CallItems;
    var c := CollectPrompt(env.first).value;
    var items := AgentItems(Live(EventsOf(env.first)), env.streamAgentTools, false);
    ToolsBuild(req, env, c, items);
  }

  lemma AgreeJoined(a: seq<ItemAt>, b: seq<ItemAt>, c: seq<ItemAt>, output: seq<OutputItem>)
    ensures DonesAgree(a + (b + c), output) <==> DonesAgree(a, output) && DonesAgree(b, output) && DonesAgree(c, output)
  {
    var all := a + (b + c);
    assert forall d :: d in all <==> d in a || d in b || d in c;
  }

  lemma ToolsAgree(dones: seq<ItemAt>, items: seq<OutputItem>, output: seq<OutputItem>)
    requires forall d :: d in dones ==> d.at < |items|
    requires |output| >= |items| && output[..|items|] == items
    requires forall x :: x in items ==> Anonymous(x) == x
    ensures DonesAgree(dones, output) <==> ToolsInPlace(dones, items)
  {
    forall d | d in dones ensures Anonymous(output[d.at]) == items[d.at] {
      assert output[d.at] == items[d.at];
    }
  }

  lemma SlotAgrees(dones: seq<ItemAt>, slot: OutputItem, text: string, items: seq<OutputItem>,
                   output: seq<OutputItem>, plain: bool)
    requires dones == [ItemAt(0, WithText(slot, text))]
    requires slot == MessageText("", "") || slot.Reasoning? || Pending(slot)
    requires slot.FunctionCall? ==> items != []
    requires forall x :: x in items ==> Pending(x) && Anonymous(x) == x
    requires |output| >= |items| && output[..|items|] == items && AnonymousAll(output) == output
    requires items == [] && output != [] ==>
               output[0].Message? || (output[0].FunctionCall? && output[0].status == "completed")
    requires items == [] ==> (output != [] && output[0] == MessageText(text, "") <==> plain)
    ensures DonesAgree(dones, output) <==> SlotInPlace(slot, items, plain)
  {
    var done := ItemAt(0, WithText(slot, text));
    assert forall d :: d in dones <==> d == done;
    assert [""][0 := text] == [text];
    if output != [] {
      assert Anonymous(output[0]) == AnonymousAll(output)[0];
    }
    if items != [] {
      assert output[0] == items[0] && items[0] in items;
    }
  }

  lemma CallsAgree(lib: JsonLibrary, calls: seq<TC.FunctionCall>, items: seq<OutputItem>, output: seq<OutputItem>)
    requires calls != [] ==> output == items + TL.CallItems(lib, calls)
    requires forall x :: x in items ==> Pending(x)
    ensures DonesAgree(CallDones(lib, calls, 0), output) <==> (calls != [] ==> items == [])
  {
    var dones, made := CallDones(lib, calls, 0), TL.CallItems(lib, calls);
    if calls != [] && items != [] {
      assert dones[0] in dones && dones[0] == ItemAt(0, made[0]);
      assert output[0] == items[0] && items[0] in items;
    } else if calls != [] {
      forall d | d in dones ensures d.at < |output| && Anonymous(output[d.at]) == d.item {
        var k :| 0 <= k < |dones| && dones[k] == d;
        assert output[k] == made[k];
      }
    }
  }

  lemma CallItemsAnonymous(lib: JsonLibrary, calls: seq<TC.FunctionCall>)
    ensures AnonymousAll(TL.CallItems(lib, calls)) == TL.CallItems(lib, calls)
  {
  }

  lemma ToolsAnonymous(req: TurnRequest, env: Environment, c: Collected, items: seq<OutputItem>)
    requires AnonymousAll(items) == items && AfterTools(req, env, c, items).Success?
    ensures var output := AfterTools(req, env, c, items).value.outputs; AnonymousAll(output) == output
  {
    hide TC.AcceptedCalls, TL.RunFrom, TL.CallItems, TL.CallsIn, AnonymousAll;
    var tools := TC.FilterTools(req.tools, req.choice);
    var output := AfterTools(req, env, c, items).value.outputs;
    MessageAnonymous(c.text);
    TL.ItemsAppend(items, MessageOf(c.text));
    if tools != [] && req.mode.Client? {
      var calls := TC.AcceptedCalls(env.loop.lib, c.text, tools, req.choice, env.clientCallId).value;
      CallItemsAnonymous(env.loop.lib, calls);
      TL.ItemsAppend(items, TL.CallItems(env.loop.lib, calls));
    } else if tools != [] {
      var run := TL.RunFrom(env.loop, env.config, tools, req.choice, 0, c.text).value;
      var called := TL.CallItems(env.loop.lib, TL.CallsIn(run.executed) + run.pending);
      CallItemsAnonymous(env.loop.lib, TL.CallsIn(run.executed) + run.pending);
      MessageAnonymous(run.text);
      var message := if !run.hitLimit && run.text != "" then [MessageText(run.text, "")] else [];
      TL.ItemsAppend(called, message);
      TL.ItemsAppend(items, called + message);
    }
  }

  lemma MessageAnonymous(text: string)
    ensures AnonymousAll(MessageOf(text)) == MessageOf(text)
    ensures AnonymousAll([MessageText(text, "")]) == [MessageText(text, "")]
    ensures AnonymousAll([]) == []
  {
  }

  lemma TurnAnonymous(req: TurnRequest, env: Environment)
    requires Turn(req, env, false).Success?
    ensures var output := Turn(req, env, false).value.outputs; AnonymousAll(output) == output
  {
    hide AfterTools, Collect, AgentItems, AnonymousAll;
    var items := AgentItems(Live(EventsOf(env.first)), env.streamAgentTools, false);
    ToolsPending(Live(EventsOf(env.first)), env.streamAgentTools);
    AllAnonymous(items);
    ToolsAnonymous(req, env, CollectPrompt(env.first).value, items);
    var again := CollectPrompt(env.retry);
    if again.Success? {
      MessageAnonymous(again.value.text);
    }
  }

  lemma AllAnonymous(items: seq<OutputItem>)
    requires forall x :: x in items ==> Anonymous(x) == x
    ensures AnonymousAll(items) == items
  {
  }

  lemma ToolDonesAgree(req: TurnRequest, env: Environment)
    requires Turn(req, env, false).Success?
    ensures var live := Live(EventsOf(env.first));
      DonesAgree(ToolDones(live, env.streamAgentTools), Turn(req, env, false).value.outputs)
      <==> (env.streamAgentTools ==> ToolsSteady(live))
  {
    TurnBuilds(req, env);
    ToolsPending(Live(EventsOf(env.first)), env.streamAgentTools);
    hide Turn, AgentItems, ToolDones, Live, DonesAgree, ToolsInPlace, FoundCalls, ClientCalls, Pending;
    var live := Live(EventsOf(env.first));
    var tools := env.streamAgentTools;
    ToolsAgree(ToolDones(live, tools), AgentItems(live, tools, false), Turn(req, env, false).value.outputs);
    if tools {
      SteadyExactly(live);
    } else {
      NothingClosed(live);
      NoneInPlace(AgentItems(live, false, false));
    }
  }

  lemma NoneInPlace(items: seq<OutputItem>)
    ensures ToolsInPlace([], items)
  {
  }

  lemma SlotDoneAgrees(req: TurnRequest, env: Environment)
    requires Turn(req, env, false).Success?
    ensures var live, text := Live(EventsOf(env.first)), FirstText(env);
      var slot := FirstSlot(live, env.streamAgentTools, req.includeReasoning);
      DonesAgree(SlotDone(live, env.streamAgentTools, req.includeReasoning, text), Turn(req, env, false).value.outputs)
      <==> (Deltas(live) != [] ==>
              slot.Some? && SlotInPlace(slot.value, AgentItems(live, env.streamAgentTools, false),
                                        text != "" && FoundCalls(req, env, text) == []))
  {
    var live, text := Live(EventsOf(env.first)), FirstText(env);
    var items, output := AgentItems(live, env.streamAgentTools, false), Turn(req, env, false).value.outputs;
    var slot := FirstSlot(live, env.streamAgentTools, req.includeReasoning);
    TurnBuilds(req, env);
    TurnAnonymous(req, env);
    ToolsPending(live, env.streamAgentTools);
    SlotShape(live, env.streamAgentTools, req.includeReasoning);
    hide Turn, AgentItems, FirstSlot, Live, Deltas, FoundCalls, Pending, ClientCalls, SlotInPlace;
    hide AnonymousAll, WithText;
    if Deltas(live) != [] {
      SlotAgrees([ItemAt(0, WithText(slot.value, text))], slot.value, text, items, output,
                 text != "" && FoundCalls(req, env, text) == []);
    }
  }

  lemma CallDonesAgree(req: TurnRequest, env: Environment)
    requires Turn(req, env, false).Success?
    ensures var calls := ClientCalls(req, env, FirstText(env));
      DonesAgree(CallDones(env.loop.lib, calls, 0), Turn(req, env, false).value.outputs)
      <==> (calls != [] ==> AgentItems(Live(EventsOf(env.first)), env.streamAgentTools, false) == [])
  {
    TurnBuilds(req, env);
    ToolsPending(Live(EventsOf(env.first)), env.streamAgentTools);
    hide Turn, AgentItems, ToolDones, Live, DonesAgree, FoundCalls, ClientCalls, Pending, CallDones, TL.CallItems;
    CallsAgree(env.loop.lib, ClientCalls(req, env, FirstText(env)),
               AgentItems(Live(EventsOf(env.first)), env.streamAgentTools, false), Turn(req, env, false).value.outputs);
  }

  /** A streamed turn closes every item where the completed response has it, exactly
      for a turn in place. */
  lemma InPlaceExactly(req: TurnRequest, env: Environment)
    requires Turn(req, env, false).Success?
    ensures DonesAgree(StreamDones(req, env), Turn(req, env, false).value.outputs) <==> InPlace(req, env)
  {
    assert CollectPrompt(env.first).Success?;
    hide Turn, AgentItems, FirstSlot, ToolDones, SlotDone, CallDones, Live, Deltas, FoundCalls, ClientCalls, DonesAgree,
      ToolsSteady, SlotInPlace, Collect;
    var live, text := Live(EventsOf(env.first)), FirstText(env);
    ToolDonesAgree(req, env);
    SlotDoneAgrees(req, env);
    CallDonesAgree(req, env);
    AgreeJoined(ToolDones(live, env.streamAgentTools), SlotDone(live, env.streamAgentTools, req.includeReasoning, text),
                CallDones(env.loop.lib, ClientCalls(req, env, text), 0), Turn(req, env, false).value.outputs);
  }

  /** Text that turns out to be calls for the client: it was streamed and closed as a
      message at index 0, where the completed response has the first call. */
  lemma CallsAfterText(req: TurnRequest, env: Environment, name: string, text: string)
    requires env.first == Success([Delta(text), Done(Stop, text, NO_USAGE)])
    requires req.tools == [TC.FunctionTool(name, None)] && req.choice.Auto? && req.mode.Client? && req.schema.None?
    requires env.loop.lib.payload(text) == Array(TL.TwoCalls(name))
    ensures Turn(req, env, false).Success? && !InPlace(req, env)
  {
    var events := env.first.value;
    LiveUnique(events, 1);
    assert Live(events) == [] + [Delta(text)];
    ReadMore([], Delta(text), env.streamAgentTools, req.includeReasoning);
    assert Deltas(Live(events)) != [];
    TL.TwoCallsFound(env.loop.lib, text, name, env.clientCallId);
    hide TC.AcceptedCalls, Deltas, Live;
    var collected := CollectPrompt(env.first);
    assert collected == Success(Collected(text, NO_USAGE, Stop));
    assert FoundCalls(req, env, text) != [];
  }

  /** A tool that is updated with another input: it was closed as it started, and the
      completed response has it as it was updated. */
  lemma ToolUpdatedLater(req: TurnRequest, env: Environment, started: AgentToolEvent, updated: AgentToolEvent)
    requires env.first == Success([AgentToolCall(started), AgentToolCall(updated), Done(Stop, "", NO_USAGE)])
    requires req.tools == [] && req.schema.None? && env.streamAgentTools
    requires updated.kind.Updated? && updated.toolCallId == started.toolCallId
    requires started.rawInput.Some? && updated.rawInput.Some? && started.rawInput != updated.rawInput
    ensures Turn(req, env, false).Success? && !InPlace(req, env)
  {
    var events, first, second := env.first.value, AgentToolCall(started), AgentToolCall(updated);
    LiveUnique(events, 2);
    assert Live(events) == [first, second];
    assert [first, second][..1] == [first];
    assert LastToolEvent([first], updated.toolCallId) == Some(started);
    assert ToolItem(started, "").arguments != ToolItem(updated, "").arguments;
    assert !Repeats([first], updated);
    hide Live, AgentItems;
    assert CollectPrompt(env.first) == Success(Collected("", NO_USAGE, Stop));
    assert TC.FilterTools(req.tools, req.choice) == [];
  }
}
