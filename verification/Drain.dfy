/** The items an agent's tool events and thoughts leave behind, and drain_sync,
    which keeps them (crates/copenai-server/src/tools/orchestrate.rs). */
module Drain {
  import opened Wrappers
  import opened Events
  import opened Items

  // ---- Agent tool items ----

  /** A linear scan for the last tool item that carries an id. */
  function LastTool(items: seq<OutputItem>, id: string): (r: Option<nat>)
    ensures r.Some? ==> r.value < |items| && items[r.value].FunctionCall? && items[r.value].callId == id
    ensures forall k :: 0 <= k < |items| && items[k].FunctionCall? && items[k].callId == id
                        ==> r.Some? && k <= r.value
  {
    if items == [] then None
    else
      var last := items[|items| - 1];
      if last.FunctionCall? && last.callId == id then Some(|items| - 1)
      else LastTool(items[..|items| - 1], id)
  }

  /** The index map says what the scan says, for every id. */
  ghost predicate IndexAgrees(items: seq<OutputItem>, index: map<string, nat>) {
    && (forall id :: id in index ==> LastTool(items, id) == Some(index[id]))
    && (forall id :: LastTool(items, id).Some? ==> id in index)
  }

  lemma {:induction false} LastToolAnonymous(items: seq<OutputItem>, id: string)
    ensures LastTool(AnonymousAll(items), id) == LastTool(items, id)
  {
    var anonymous := AnonymousAll(items);
    var a, b := LastTool(anonymous, id), LastTool(items, id);
    assert b.Some? ==> anonymous[b.value] == Anonymous(items[b.value]);
    assert a.Some? ==> anonymous[a.value] == Anonymous(items[a.value]);
  }

  lemma {:induction false} LastToolSnoc(items: seq<OutputItem>, item: OutputItem, id: string)
    ensures LastTool(items + [item], id) ==
            if item.FunctionCall? && item.callId == id then Some(|items|) else LastTool(items, id)
  {
    assert (items + [item])[..|items|] == items;
  }

  lemma LastToolReplace(items: seq<OutputItem>, at: nat, item: OutputItem, id: string)
    requires at < |items| && items[at].FunctionCall? && item.FunctionCall? && item.callId == items[at].callId
    ensures LastTool(items[at := item], id) == LastTool(items, id)
  {
    var a, b := LastTool(items[at := item], id), LastTool(items, id);
    assert a.Some? ==> items[a.value].FunctionCall? && items[a.value].callId == id;
    assert b.Some? ==> items[at := item][b.value].FunctionCall? && items[at := item][b.value].callId == id;
  }

  function ToolItem(ev: AgentToolEvent, id: string): OutputItem {
    AgentFunctionCall(id, ev.toolCallId, ev.title, ev.rawInput)
  }

  /** A started tool is appended; an update replaces the last item of that id, or
      is appended when there is none. */
  function WithTool(items: seq<OutputItem>, ev: AgentToolEvent): seq<OutputItem> {
    var at := PlaceOf(items, ev);
    if at < |items| then items[at := ToolItem(ev, "")] else items + [ToolItem(ev, "")]
  }

  function PlaceOf(items: seq<OutputItem>, ev: AgentToolEvent): (at: nat)
    ensures at < |items| ==> items[at].FunctionCall? && items[at].callId == ev.toolCallId
    ensures at <= |items|
  {
    var known := LastTool(items, ev.toolCallId);
    if ev.kind.Updated? && known.Some? then known.value else |items|
  }

  /** The items a run of live events leaves behind, up to generated ids. */
  function AgentItems(events: seq<PromptStreamEvent>, tools: bool, reasoning: bool): seq<OutputItem> {
    if events == [] then [] else
      var before := AgentItems(events[..|events| - 1], tools, reasoning);
      var last := events[|events| - 1];
      if last.ReasoningDelta? && reasoning then before + [ReasoningItem("", last.thought)]
      else if last.AgentToolCall? && tools then WithTool(before, last.tool)
      else before
  }

  lemma ReplacedAnonymous(items: seq<OutputItem>, at: nat, item: OutputItem)
    requires at < |items|
    ensures AnonymousAll(items[at := item]) == AnonymousAll(items)[at := Anonymous(item)]
  {
  }

  lemma ToolItemAnonymous(ev: AgentToolEvent, id: string)
    ensures Anonymous(ToolItem(ev, id)) == ToolItem(ev, "")
    ensures ToolItem(ev, id).FunctionCall? && ToolItem(ev, id).callId == ev.toolCallId
  {
    hide SanitizeAgentName;
  }

  method ApplyAgentToolEvent(outputs: seq<OutputItem>, index: map<string, nat>, ev: AgentToolEvent)
    returns (outputs': seq<OutputItem>, index': map<string, nat>, at: nat)
    requires IndexAgrees(outputs, index)
    ensures IndexAgrees(outputs', index')
    ensures AnonymousAll(outputs') == WithTool(AnonymousAll(outputs), ev)
    ensures LastTool(outputs', ev.toolCallId) == Some(at)
    ensures at < |outputs'| && Anonymous(outputs'[at]) == ToolItem(ev, "")
    ensures at == PlaceOf(AnonymousAll(outputs), ev)
    ensures outputs' == if at < |outputs| then outputs[at := outputs'[at]] else outputs + [outputs'[at]]
  {
    hide LastTool, ToolItem, AnonymousAll;
    LastToolAnonymous(outputs, ev.toolCallId);
    var id := NewItemId("agent_fc");
    var item := ToolItem(ev, id);
    ToolItemAnonymous(ev, id);
    if ev.kind.Updated? && ev.toolCallId in index {
      assert LastTool(outputs, ev.toolCallId) == Some(index[ev.toolCallId]);
      at := index[ev.toolCallId];
      outputs', index' := outputs[at := item], index;
      ReplacedAnonymous(outputs, at, item);
      forall other ensures LastTool(outputs', other) == LastTool(outputs, other) {
        LastToolReplace(outputs, at, item, other);
      }
    } else {
      at := |outputs|;
      outputs', index' := outputs + [item], index[ev.toolCallId := at];
      AnonymousSnoc(outputs, item);
      forall other ensures LastTool(outputs', other) ==
                           if other == ev.toolCallId then Some(at) else LastTool(outputs, other) {
        LastToolSnoc(outputs, item, other);
      }
    }
  }

  datatype Drained = Drained(text: string, usage: UsageSnapshot, finish: FinishReason,
                             outputs: seq<OutputItem>, index: map<string, nat>)

  /** What both consumers must return: the text, usage and finish every other
      consumer gets, and the agent items with their index. */
  ghost predicate DrainedAs(r: Result<Drained, string>, events: seq<PromptStreamEvent>, tools: bool, reasoning: bool) {
    match Collect(events)
    case Failure(e) => r == Failure(e)
    case Success(c) =>
      && r.Success?
      && r.value.text == c.text && r.value.usage == c.usage && r.value.finish == c.finish
      && AnonymousAll(r.value.outputs) == AgentItems(Live(events), tools, reasoning)
      && IndexAgrees(r.value.outputs, r.value.index)
  }

  lemma {:induction false} AgentItemsStep(read: seq<PromptStreamEvent>, e: PromptStreamEvent, tools: bool,
                                          reasoning: bool)
    ensures AgentItems(read + [e], tools, reasoning) ==
      if e.ReasoningDelta? && reasoning then AgentItems(read, tools, reasoning) + [ReasoningItem("", e.thought)]
      else if e.AgentToolCall? && tools then WithTool(AgentItems(read, tools, reasoning), e.tool)
      else AgentItems(read, tools, reasoning)
  {
    assert (read + [e])[..|read|] == read;
  }

  /** The item of a tool event. */
  ghost predicate ToolItemOf(item: OutputItem, ev: AgentToolEvent) {
    && item.FunctionCall? && item.id == "" && item.callId == ev.toolCallId && item.status == "in_progress"
    && item.name == "agent_" + SanitizeAgentName(ev.title)
    && item.arguments == if ev.rawInput.Some? then ev.rawInput.value else "{}"
  }

  /** The last item of a tool: no later one has its id. */
  ghost predicate IsLastTool(items: seq<OutputItem>, at: nat, id: string) {
    && at < |items| && items[at].FunctionCall? && items[at].callId == id
    && forall k :: at < k < |items| ==> !(items[k].FunctionCall? && items[k].callId == id)
  }

  /** What one more event leaves behind: a thought a reasoning item, a started tool
      or an unknown one a new item, an update of a known tool an item in place of the
      last of that id, and every other event nothing. */
  lemma {:induction false} OneMoreEvent(read: seq<PromptStreamEvent>, e: PromptStreamEvent, tools: bool,
                                        reasoning: bool)
    ensures var items, more := AgentItems(read, tools, reasoning), AgentItems(read + [e], tools, reasoning);
      && AgentItems([], tools, reasoning) == []
      && (if e.ReasoningDelta? && reasoning then more == items + [Reasoning("", e.thought, "completed")]
          else if e.AgentToolCall? && tools then
            && (forall at: nat :: e.tool.kind == Updated && IsLastTool(items, at, e.tool.toolCallId) ==>
                  |more| == |items| && more == items[at := more[at]] && ToolItemOf(more[at], e.tool))
            && (e.tool.kind == Started || (forall at: nat :: !IsLastTool(items, at, e.tool.toolCallId)) ==>
                  |more| == |items| + 1 && more[..|items|] == items && ToolItemOf(more[|items|], e.tool))
          else more == items)
  {
    AgentItemsStep(read, e, tools, reasoning);
    hide SanitizeAgentName, AgentItems;
    NoItemsYet();
    if e.AgentToolCall? && tools {
      var items := AgentItems(read, tools, reasoning);
      PlaceIsLast(items, e.tool);
      var item, at := ToolItem(e.tool, ""), PlaceOf(items, e.tool);
      assert ToolItemOf(item, e.tool);
      assert at < |items| ==> items[at := item][at] == item;
      hide PlaceOf, IsLastTool, ToolItem, ToolItemOf;
    }
  }

  lemma PlaceIsLast(items: seq<OutputItem>, ev: AgentToolEvent)
    ensures forall at: nat :: ev.kind == Updated && IsLastTool(items, at, ev.toolCallId) ==> PlaceOf(items, ev) == at
    ensures ev.kind == Started || (forall at: nat :: !IsLastTool(items, at, ev.toolCallId)) ==>
              PlaceOf(items, ev) == |items|
  {
    var at := PlaceOf(items, ev);
    assert ev.kind == Updated && at < |items| ==> IsLastTool(items, at, ev.toolCallId);
  }

  lemma AnonymousSnoc(items: seq<OutputItem>, item: OutputItem)
    ensures AnonymousAll(items + [item]) == AnonymousAll(items) + [Anonymous(item)]
  {
  }

  lemma ReasoningKeepsIndex(outputs: seq<OutputItem>, index: map<string, nat>, item: OutputItem)
    requires IndexAgrees(outputs, index) && item.Reasoning?
    ensures IndexAgrees(outputs + [item], index)
  {
    forall id ensures LastTool(outputs + [item], id) == LastTool(outputs, id) {
      LastToolSnoc(outputs, item, id);
    }
  }

  lemma NoItemsYet()
    ensures AnonymousAll([]) == []
    ensures IndexAgrees([], map[])
    ensures forall tools, reasoning :: AgentItems([], tools, reasoning) == []
  {
  }

  method DrainSync(events: seq<PromptStreamEvent>, streamAgentTools: bool, includeReasoning: bool)
    returns (r: Result<Drained, string>)
    ensures DrainedAs(r, events, streamAgentTools, includeReasoning)
  {
    hide AgentItems, WithTool, LastTool, IndexAgrees, AnonymousAll, ToolItem, TextOf, LastUsage;
    NothingRead();
    NoItemsYet();
    var text, usage, finish := "", NO_USAGE, Stop;
    var outputs: seq<OutputItem>, index: map<string, nat> := [], map[];
    var i := 0;
    while i < |events|
      invariant 0 <= i <= |Live(events)|
      invariant text == TextOf(events[..i])
      invariant usage == LastUsage(events[..i])
      invariant finish == Stop
      invariant AnonymousAll(outputs) == AgentItems(events[..i], streamAgentTools, includeReasoning)
      invariant IndexAgrees(outputs, index)
    {
      LiveStep(events, i);
      ReadStep(events, i);
      assert events[..i + 1] == events[..i] + [events[i]];
      AgentItemsStep(events[..i], events[i], streamAgentTools, includeReasoning);
      match events[i] {
        case Delta(delta) => text := text + delta;
        case Usage(u) => usage := u;
        case Done(reason, fullText, u) =>
          return Success(Drained(fullText, u, reason, outputs, index));
        case Error(e) => return Failure(e);
        case ReasoningDelta(thought) =>
          if includeReasoning {
            var id := NewItemId("rs");
            ReasoningKeepsIndex(outputs, index, ReasoningItem(id, thought));
            AnonymousSnoc(outputs, ReasoningItem(id, thought));
            outputs := outputs + [ReasoningItem(id, thought)];
          }
        case AgentToolCall(ev) =>
          if streamAgentTools {
            var at;
            outputs, index, at := ApplyAgentToolEvent(outputs, index, ev);
          }
      }
      i := i + 1;
    }
    assert Live(events) == events[..i];
    r := Success(Drained(text, usage, finish, outputs, index));
  }
}
