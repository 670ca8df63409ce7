/** What the events of a streamed prompt should show, and when they do
    (crates/copenai-server/src/tools/orchestrate.rs). */
module StreamSpec {
  import opened Wrappers
  import opened Events
  import opened Items
  import opened Emitted
  import opened Drain

  // ---- Thoughts and tools ----

  function SideOfAgent(e: PromptStreamEvent, tools: bool, reasoning: bool): seq<SideStep> {
    if e.ReasoningDelta? && reasoning then [Thought(e.thought)]
    else if e.AgentToolCall? && tools then [ToolShown(ToolItem(e.tool, ""))]
    else []
  }

  /** The agent's thoughts and tool events that are to be shown, in order. */
  function AgentSides(events: seq<PromptStreamEvent>, tools: bool, reasoning: bool): seq<SideStep> {
    if events == [] then [] else
      AgentSides(events[..|events| - 1], tools, reasoning) + SideOfAgent(events[|events| - 1], tools, reasoning)
  }

  predicate NoReasoning(events: seq<PromptStreamEvent>) {
    forall k :: 0 <= k < |events| ==> !events[k].ReasoningDelta?
  }

  /** No tool is shown. */
  predicate NoTool(events: seq<PromptStreamEvent>, tools: bool) {
    tools ==> forall k :: 0 <= k < |events| ==> !events[k].AgentToolCall?
  }

  /** An earlier event was about the same tool. */
  predicate Known(events: seq<PromptStreamEvent>, id: string) {
    exists k :: 0 <= k < |events| && events[k].AgentToolCall? && events[k].tool.toolCallId == id
  }

  // ---- When the indexes are right ----

  /** What is shown beside the tools, thoughts and the message, as far as no tool has
      taken its slot. */
  function Surplus(events: seq<PromptStreamEvent>, tools: bool, reasoning: bool): int {
    if events == [] then 0 else
      var front, last := events[..|events| - 1], events[|events| - 1];
      Surplus(front, tools, reasoning) + SurplusOf(front, last, tools, reasoning)
  }

  function SurplusOf(front: seq<PromptStreamEvent>, e: PromptStreamEvent, tools: bool, reasoning: bool): int {
    if e.ReasoningDelta? && reasoning then 1
    else if e.Delta? && Deltas(front) == [] then 1
    else if e.AgentToolCall? && tools && e.tool.kind.Updated? && !Known(front, e.tool.toolCallId) then -1
    else 0
  }

  /** A tool may start only while nothing is in surplus, and an update of an unknown
      tool needs a surplus, whose slot it takes. Text may come only while no tool is
      shown, and its first piece only while nothing is shown at all. */
  predicate EventFits(front: seq<PromptStreamEvent>, e: PromptStreamEvent, tools: bool, reasoning: bool) {
    && (e.AgentToolCall? && tools ==>
          if e.tool.kind.Started? then Surplus(front, tools, reasoning) == 0
          else Known(front, e.tool.toolCallId) || Surplus(front, tools, reasoning) > 0)
    && (e.Delta? ==> NoTool(front, tools) && (Deltas(front) == [] ==> Surplus(front, tools, reasoning) == 0))
  }

  /** Exactly when every emitted index is right. */
  predicate IndexesFit(events: seq<PromptStreamEvent>, tools: bool, reasoning: bool) {
    events == [] || (
      var front, last := events[..|events| - 1], events[|events| - 1];
      IndexesFit(front, tools, reasoning) && EventFits(front, last, tools, reasoning))
  }

  /** Exactly when the message lifecycle of a finished run is right as well: no tool
      comes in the way of the message. */
  predicate InStep(events: seq<PromptStreamEvent>, tools: bool, reasoning: bool) {
    IndexesFit(events, tools, reasoning) && (Deltas(events) == [] || NoTool(events, tools))
  }

  lemma {:induction false} FitMore(read: seq<PromptStreamEvent>, e: PromptStreamEvent, tools: bool, reasoning: bool)
    ensures IndexesFit(read + [e], tools, reasoning)
      <==> IndexesFit(read, tools, reasoning) && EventFits(read, e, tools, reasoning)
    ensures Surplus(read + [e], tools, reasoning)
         == Surplus(read, tools, reasoning) + SurplusOf(read, e, tools, reasoning)
  {
    assert (read + [e])[..|read|] == read;
  }

  /** What one more event adds to the text, the sides and the items kept. */
  lemma {:induction false} ReadMore(read: seq<PromptStreamEvent>, e: PromptStreamEvent, tools: bool, reasoning: bool)
    ensures Deltas(read + [e]) == Deltas(read) + (if e.Delta? then [e.delta] else [])
    ensures !e.Delta? ==> Deltas(read + [e]) == Deltas(read)
    ensures AgentSides(read + [e], tools, reasoning)
         == AgentSides(read, tools, reasoning) + SideOfAgent(e, tools, reasoning)
    ensures AgentItems(read + [e], tools, false) ==
      if e.AgentToolCall? && tools then WithTool(AgentItems(read, tools, false), e.tool)
      else AgentItems(read, tools, false)
  {
    assert (read + [e])[..|read|] == read;
  }

  lemma NoReasoningMore(read: seq<PromptStreamEvent>, e: PromptStreamEvent)
    ensures NoReasoning(read + [e]) <==> NoReasoning(read) && !e.ReasoningDelta?
  {
    var all := read + [e];
    assert all[|read|] == e;
    if NoReasoning(all) {
      forall k | 0 <= k < |read| ensures !read[k].ReasoningDelta? { assert all[k] == read[k]; }
    }
  }

  lemma {:induction false} NoToolNoItem(events: seq<PromptStreamEvent>, tools: bool)
    ensures NoTool(events, tools) <==> AgentItems(events, tools, false) == []
  {
    if events != [] {
      var front, last := events[..|events| - 1], events[|events| - 1];
      NoToolNoItem(front, tools);
      assert events[|events| - 1] == last;
      assert NoTool(events, tools) <==> NoTool(front, tools) && !(tools && last.AgentToolCall?) by {
        assert forall k :: 0 <= k < |front| ==> front[k] == events[k];
      }
    }
  }

  /** A tool is known exactly when some item carries its id. */
  lemma {:induction false} KnownIsListed(events: seq<PromptStreamEvent>, id: string)
    ensures Known(events, id) <==> LastTool(AgentItems(events, true, false), id).Some?
  {
    if events != [] {
      var front, last := events[..|events| - 1], events[|events| - 1];
      KnownIsListed(front, id);
      assert events == front + [last];
      assert Known(events, id) <==> Known(front, id) || (last.AgentToolCall? && last.tool.toolCallId == id) by {
        if Known(front, id) {
          var k :| 0 <= k < |front| && front[k].AgentToolCall? && front[k].tool.toolCallId == id;
          assert events[k] == front[k];
        }
      }
      if last.AgentToolCall? {
        PlacedTool(AgentItems(front, true, false), last.tool, id);
      }
    }
  }

  lemma {:induction false} PlacedTool(items: seq<OutputItem>, ev: AgentToolEvent, id: string)
    ensures var at := PlaceOf(items, ev);
      LastTool(WithTool(items, ev), id) == if id == ev.toolCallId then Some(at) else LastTool(items, id)
  {
    var at, item := PlaceOf(items, ev), ToolItem(ev, "");
    if at < |items| {
      LastToolReplace(items, at, item, id);
    } else {
      LastToolSnoc(items, item, id);
    }
  }

  // ---- Where items are closed ----

  /** The tool items as they are closed, each at the index it has in the items kept. */
  function ToolDones(events: seq<PromptStreamEvent>, tools: bool): seq<ItemAt> {
    if events == [] then [] else
      var front := events[..|events| - 1];
      ToolDones(front, tools) + ToolDoneOf(AgentItems(front, tools, false), events[|events| - 1], tools)
  }

  function ToolDoneOf(items: seq<OutputItem>, e: PromptStreamEvent, tools: bool): seq<ItemAt> {
    if e.AgentToolCall? && tools then [ItemAt(PlaceOf(items, e.tool), ToolItem(e.tool, ""))] else []
  }

  /** What comes to stand in the first output slot of the snapshots. */
  function FirstSlot(events: seq<PromptStreamEvent>, tools: bool, reasoning: bool): Option<OutputItem> {
    if events == [] then None else
      var front := events[..|events| - 1];
      SlotAfter(FirstSlot(front, tools, reasoning), AgentItems(front, tools, false), events[|events| - 1],
                tools, reasoning)
  }

  function SlotAfter(slot: Option<OutputItem>, items: seq<OutputItem>, e: PromptStreamEvent,
                     tools: bool, reasoning: bool): Option<OutputItem>
  {
    if e.Delta? then OrFirst(slot, MessageText("", ""))
    else if e.ReasoningDelta? && reasoning then OrFirst(slot, ReasoningItem("", e.thought))
    else if e.AgentToolCall? && tools then
      if e.tool.kind.Started? then OrFirst(slot, ToolItem(e.tool, ""))
      else if slot.Some? && PlaceOf(items, e.tool) == 0 then Some(ToolItem(e.tool, "")) else slot
    else slot
  }

  function OrFirst(slot: Option<OutputItem>, item: OutputItem): Option<OutputItem> {
    if slot.None? then Some(item) else slot
  }

  function WithText(item: OutputItem, text: string): OutputItem {
    if item.Message? && item.content != [] then item.(content := item.content[0 := text]) else item
  }

  /** A run with text closes the first slot, whatever stands there, with the text. */
  function SlotDone(events: seq<PromptStreamEvent>, tools: bool, reasoning: bool, text: string): seq<ItemAt> {
    var slot := FirstSlot(events, tools, reasoning);
    if Deltas(events) != [] && slot.Some? then [ItemAt(0, WithText(slot.value, text))] else []
  }

  /** When a tool stands there, that shows it once more. */
  function SlotSide(events: seq<PromptStreamEvent>, tools: bool, reasoning: bool): seq<SideStep> {
    var slot := FirstSlot(events, tools, reasoning);
    if Deltas(events) != [] && slot.Some? && slot.value.FunctionCall? then [ToolShown(slot.value)] else []
  }

  lemma {:induction false} PlaceMore(read: seq<PromptStreamEvent>, e: PromptStreamEvent, tools: bool, reasoning: bool)
    ensures ToolDones(read + [e], tools)
         == ToolDones(read, tools) + ToolDoneOf(AgentItems(read, tools, false), e, tools)
    ensures FirstSlot(read + [e], tools, reasoning)
         == SlotAfter(FirstSlot(read, tools, reasoning), AgentItems(read, tools, false), e, tools, reasoning)
  {
    assert (read + [e])[..|read|] == read;
  }

  // ---- What is announced ----

  /** How many items the snapshots hold: every shown thought, every started tool, and
      the message once there is text. */
  function ShownCount(events: seq<PromptStreamEvent>, tools: bool, reasoning: bool): nat {
    if events == [] then 0 else
      var front, last := events[..|events| - 1], events[|events| - 1];
      ShownCount(front, tools, reasoning) + (if Announces(front, last, tools, reasoning) then 1 else 0)
  }

  predicate Announces(front: seq<PromptStreamEvent>, e: PromptStreamEvent, tools: bool, reasoning: bool) {
    match e
    case Delta(_) => Deltas(front) == []
    case ReasoningDelta(_) => reasoning
    case AgentToolCall(ev) => tools && ev.kind.Started?
    case _ => false
  }

  /** The announced items in order: the message at the first delta, at index 0; each
      shown thought behind all that is shown; each started tool at the index it has in
      the items kept. */
  function Announced(events: seq<PromptStreamEvent>, tools: bool, reasoning: bool): seq<ItemAt> {
    if events == [] then [] else
      var front, last := events[..|events| - 1], events[|events| - 1];
      Announced(front, tools, reasoning) + AnnouncedOf(front, last, tools, reasoning)
  }

  function AnnouncedOf(front: seq<PromptStreamEvent>, e: PromptStreamEvent, tools: bool, reasoning: bool): seq<ItemAt> {
    if !Announces(front, e, tools, reasoning) then []
    else match e
      case Delta(_) => [ItemAt(0, MessageText("", ""))]
      case ReasoningDelta(thought) => [ItemAt(ShownCount(front, tools, reasoning), ReasoningItem("", thought))]
      case AgentToolCall(ev) => [ItemAt(PlaceOf(AgentItems(front, tools, false), ev), ToolItem(ev, ""))]
      case _ => []
  }

  lemma {:induction false} AnnounceMore(read: seq<PromptStreamEvent>, e: PromptStreamEvent, tools: bool,
                                        reasoning: bool)
    ensures Announced(read + [e], tools, reasoning)
         == Announced(read, tools, reasoning) + AnnouncedOf(read, e, tools, reasoning)
    ensures ShownCount(read + [e], tools, reasoning)
         == ShownCount(read, tools, reasoning) + if Announces(read, e, tools, reasoning) then 1 else 0
  {
    assert (read + [e])[..|read|] == read;
  }

  // ---- What one more event shows ----

  predicate NoText(events: seq<PromptStreamEvent>) {
    forall k :: 0 <= k < |events| ==> !events[k].Delta?
  }

  /** The message is announced at the first delta, in the first slot. A thought that
      is shown is announced behind everything announced before, a started tool behind
      the items kept. Nothing else is announced. */
  lemma {:induction false} OneMoreAnnounced(read: seq<PromptStreamEvent>, e: PromptStreamEvent, tools: bool,
                                            reasoning: bool)
    ensures Announced([], tools, reasoning) == []
    ensures var before, after := Announced(read, tools, reasoning), Announced(read + [e], tools, reasoning);
      if e.Delta? && NoText(read) then after == before + [ItemAt(0, Message("", "assistant", "completed", [""]))]
      else if e.ReasoningDelta? && reasoning then
        after == before + [ItemAt(|before|, Reasoning("", e.thought, "completed"))]
      else if e.AgentToolCall? && tools && e.tool.kind == Started then
        && |after| == |before| + 1 && after[..|before|] == before
        && after[|before|].at == |AgentItems(read, true, false)| && ToolItemOf(after[|before|].item, e.tool)
      else after == before
  {
    NothingShown(tools, reasoning);
    AnnounceMore(read, e, tools, reasoning);
    CountIsAnnounced(read, tools, reasoning);
    TextIsHeard(read);
    hide SanitizeAgentName, Announced, ShownCount, Deltas, NoText;
    assert Announced(read, tools, reasoning) + [] == Announced(read, tools, reasoning);
  }

  lemma {:induction false} CountIsAnnounced(events: seq<PromptStreamEvent>, tools: bool, reasoning: bool)
    ensures ShownCount(events, tools, reasoning) == |Announced(events, tools, reasoning)|
  {
    if events != [] {
      hide PlaceOf, ToolItem, AgentItems;
      CountIsAnnounced(events[..|events| - 1], tools, reasoning);
    }
  }

  lemma {:induction false} TextIsHeard(events: seq<PromptStreamEvent>)
    ensures Deltas(events) == [] <==> NoText(events)
  {
    if events != [] {
      var front := events[..|events| - 1];
      TextIsHeard(front);
      assert NoText(events) <==> NoText(front) && !events[|events| - 1].Delta? by {
        assert forall k :: 0 <= k < |front| ==> front[k] == events[k];
      }
    }
  }

  /** Every thought that is shown and every tool event is told, in order. A tool event
      closes an item of what it says: where the last item of that tool stands if it is
      an update of one, else behind the items kept. */
  lemma {:induction false} OneMoreShown(read: seq<PromptStreamEvent>, e: PromptStreamEvent, tools: bool,
                                        reasoning: bool)
    ensures AgentSides([], tools, reasoning) == [] && ToolDones([], tools) == []
    ensures var sides, dones := AgentSides(read, tools, reasoning), ToolDones(read, tools);
      var sides', dones' := AgentSides(read + [e], tools, reasoning), ToolDones(read + [e], tools);
      if e.AgentToolCall? && tools then
        && |sides'| == |sides| + 1 && sides'[..|sides|] == sides
        && |dones'| == |dones| + 1 && dones'[..|dones|] == dones
        && sides'[|sides|] == ToolShown(dones'[|dones|].item) && ToolItemOf(dones'[|dones|].item, e.tool)
        && TakesPlace(AgentItems(read, true, false), e.tool, dones'[|dones|].at)
      else
        dones' == dones && sides' == sides + if e.ReasoningDelta? && reasoning then [Thought(e.thought)] else []
  {
    NothingShown(tools, reasoning);
    ReadMore(read, e, tools, reasoning);
    PlaceMore(read, e, tools, reasoning);
    hide SanitizeAgentName, AgentSides, ToolDones, AgentItems, PlaceOf, TakesPlace;
    assert ToolDones(read, tools) + [] == ToolDones(read, tools);
    if e.AgentToolCall? && tools {
      PlaceTaken(AgentItems(read, true, false), e.tool);
    }
  }

  lemma {:induction false} NothingShown(tools: bool, reasoning: bool)
    ensures Announced([], tools, reasoning) == [] && AgentSides([], tools, reasoning) == []
    ensures ToolDones([], tools) == [] && FirstSlot([], tools, reasoning) == None
  {
  }

  /** Where the item of a tool event goes. */
  ghost predicate TakesPlace(items: seq<OutputItem>, ev: AgentToolEvent, at: nat) {
    if ev.kind == Updated && exists k: nat :: IsLastTool(items, k, ev.toolCallId)
    then IsLastTool(items, at, ev.toolCallId)
    else at == |items|
  }

  lemma PlaceTaken(items: seq<OutputItem>, ev: AgentToolEvent)
    ensures TakesPlace(items, ev, PlaceOf(items, ev))
    ensures forall at: nat :: TakesPlace(items, ev, at) ==> at == PlaceOf(items, ev)
  {
    hide PlaceOf;
    PlaceIsLast(items, ev);
  }

  /** The first slot holds what is shown first, and stays so unless an update takes
      the first place among the items kept. At the end of a run with text, the first
      slot is closed with the text if it is the message, else as it is. */
  lemma {:induction false} OneMoreSlot(read: seq<PromptStreamEvent>, e: PromptStreamEvent, tools: bool,
                                       reasoning: bool, text: string)
    ensures FirstSlot([], tools, reasoning) == None
    ensures var slot, slot' := FirstSlot(read, tools, reasoning), FirstSlot(read + [e], tools, reasoning);
      if e.Delta? && slot.None? then slot' == Some(Message("", "assistant", "completed", [""]))
      else if e.ReasoningDelta? && reasoning && slot.None? then slot' == Some(Reasoning("", e.thought, "completed"))
      else if e.AgentToolCall? && tools && (if e.tool.kind == Started then slot.None?
                                            else slot.Some? && TakesPlace(AgentItems(read, true, false), e.tool, 0))
      then slot'.Some? && ToolItemOf(slot'.value, e.tool)
      else slot' == slot
    ensures var slot := FirstSlot(read, tools, reasoning);
      SlotDone(read, tools, reasoning, text) ==
      if NoText(read) || slot.None? then []
      else [ItemAt(0, if slot == Some(Message("", "assistant", "completed", [""]))
                      then Message("", "assistant", "completed", [text]) else slot.value)]
  {
    NothingShown(tools, reasoning);
    PlaceMore(read, e, tools, reasoning);
    SlotClosed(read, tools, reasoning, text);
    hide SlotDone, SanitizeAgentName, FirstSlot, AgentItems, PlaceOf, TakesPlace, Deltas, NoText;
    if e.AgentToolCall? {
      PlaceTaken(AgentItems(read, true, false), e.tool);
    }
  }

  lemma {:induction false} SlotClosed(read: seq<PromptStreamEvent>, tools: bool, reasoning: bool, text: string)
    ensures var slot := FirstSlot(read, tools, reasoning);
      SlotDone(read, tools, reasoning, text) ==
      if NoText(read) || slot.None? then []
      else [ItemAt(0, if slot == Some(Message("", "assistant", "completed", [""]))
                      then Message("", "assistant", "completed", [text]) else slot.value)]
  {
    TextIsHeard(read);
    SlotIsPlain(read, tools, reasoning);
    hide FirstSlot, Deltas, NoText;
    assert [""][0 := text] == [text];
  }

  /** A message in the first slot is still without text. */
  lemma {:induction false} SlotIsPlain(events: seq<PromptStreamEvent>, tools: bool, reasoning: bool)
    ensures var slot := FirstSlot(events, tools, reasoning);
      slot.Some? && slot.value.Message? ==> slot.value == Message("", "assistant", "completed", [""])
  {
    if events != [] {
      hide SanitizeAgentName, AgentItems, PlaceOf;
      SlotIsPlain(events[..|events| - 1], tools, reasoning);
    }
  }

  // ---- When closed tools stay as they are ----

  function LastToolEvent(events: seq<PromptStreamEvent>, id: string): Option<AgentToolEvent> {
    if events == [] then None else
      var last := events[|events| - 1];
      if last.AgentToolCall? && last.tool.toolCallId == id then Some(last.tool)
      else LastToolEvent(events[..|events| - 1], id)
  }

  /** Every update of a known tool repeats what its latest event said. */
  predicate ToolsSteady(events: seq<PromptStreamEvent>) {
    events == [] || (
      var front, last := events[..|events| - 1], events[|events| - 1];
      ToolsSteady(front) && (last.AgentToolCall? ==> Repeats(front, last.tool)))
  }

  predicate Repeats(front: seq<PromptStreamEvent>, ev: AgentToolEvent) {
    var latest := LastToolEvent(front, ev.toolCallId);
    ev.kind.Updated? && latest.Some? ==> ToolItem(latest.value, "") == ToolItem(ev, "")
  }

  predicate ToolsInPlace(dones: seq<ItemAt>, items: seq<OutputItem>) {
    forall d :: d in dones ==> d.at < |items| && items[d.at] == d.item
  }

  /** The last item of a tool is what its latest event said. */
  lemma {:induction false} LatestIsListed(events: seq<PromptStreamEvent>, id: string)
    ensures var at, latest := LastTool(AgentItems(events, true, false), id), LastToolEvent(events, id);
      && (at.Some? <==> latest.Some?)
      && (at.Some? ==> AgentItems(events, true, false)[at.value] == ToolItem(latest.value, ""))
  {
    if events != [] {
      var front, last := events[..|events| - 1], events[|events| - 1];
      LatestIsListed(front, id);
      if last.AgentToolCall? {
        hide ToolItem;
        PlacedTool(AgentItems(front, true, false), last.tool, id);
      }
    }
  }

  /** Whatever is kept was closed where it is kept, and nothing was closed elsewhere. */
  ghost predicate Kept(items: seq<OutputItem>, dones: seq<ItemAt>) {
    && (forall k :: 0 <= k < |items| ==> ItemAt(k, items[k]) in dones)
    && (forall d :: d in dones ==> d.at < |items|)
  }

  lemma KeptOneMore(items: seq<OutputItem>, dones: seq<ItemAt>, at: nat, item: OutputItem)
    requires Kept(items, dones) && at <= |items|
    ensures Kept(if at < |items| then items[at := item] else items + [item], dones + [ItemAt(at, item)])
  {
    var items' := if at < |items| then items[at := item] else items + [item];
    var dones' := dones + [ItemAt(at, item)];
    assert forall d :: d in dones' <==> d in dones || d == ItemAt(at, item);
    forall k | 0 <= k < |items'| ensures ItemAt(k, items'[k]) in dones' {
      if k != at {
        assert items'[k] == items[k];
      }
    }
  }

  lemma {:induction false} KeptWasClosed(events: seq<PromptStreamEvent>)
    ensures Kept(AgentItems(events, true, false), ToolDones(events, true))
  {
    if events != [] {
      var front, last := events[..|events| - 1], events[|events| - 1];
      KeptWasClosed(front);
      hide ToolItem, Kept;
      if last.AgentToolCall? {
        var items := AgentItems(front, true, false);
        KeptOneMore(items, ToolDones(front, true), PlaceOf(items, last.tool), ToolItem(last.tool, ""));
      } else {
        assert ToolDones(events, true) == ToolDones(front, true) + [];
      }
    }
  }

  lemma OneMoreTool(items: seq<OutputItem>, dones: seq<ItemAt>, at: nat, item: OutputItem)
    requires at <= |items| && Kept(items, dones)
    ensures ToolsInPlace(dones + [ItemAt(at, item)], if at < |items| then items[at := item] else items + [item])
      <==> ToolsInPlace(dones, items) && (at < |items| ==> items[at] == item)
  {
    var items' := if at < |items| then items[at := item] else items + [item];
    var dones' := dones + [ItemAt(at, item)];
    assert forall d :: d in dones' <==> d in dones || d == ItemAt(at, item);
    if at < |items| && items[at] != item {
      assert ItemAt(at, items[at]) in dones';
    } else {
      assert forall k :: 0 <= k < |items| ==> items'[k] == items[k];
    }
  }

  /** Every closed tool is where and what it was closed as, exactly when no update
      says something new. */
  lemma {:induction false} SteadyExactly(events: seq<PromptStreamEvent>)
    ensures ToolsInPlace(ToolDones(events, true), AgentItems(events, true, false)) <==> ToolsSteady(events)
  {
    if events != [] {
      var front, last := events[..|events| - 1], events[|events| - 1];
      SteadyExactly(front);
      hide ToolItem, ToolsInPlace, Kept;
      if last.AgentToolCall? {
        var items := AgentItems(front, true, false);
        KeptWasClosed(front);
        LatestIsListed(front, last.tool.toolCallId);
        OneMoreTool(items, ToolDones(front, true), PlaceOf(items, last.tool), ToolItem(last.tool, ""));
      } else {
        assert ToolDones(events, true) == ToolDones(front, true) + [];
      }
    }
  }

  lemma {:induction false} NothingClosed(events: seq<PromptStreamEvent>)
    ensures ToolDones(events, false) == []
  {
    if events != [] {
      NothingClosed(events[..|events| - 1]);
    }
  }
}
