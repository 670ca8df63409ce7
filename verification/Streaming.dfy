/** drain_stream: the same drain, emitting protocol events as it goes
    (crates/copenai-server/src/tools/orchestrate.rs). */
module Streaming {
  import opened Wrappers
  import opened Events
  import opened Items
  import opened Emitted
  import opened Drain
  import opened StreamSpec

  datatype Stream = Stream(
    response: ResponseObject,
    agentOutputs: seq<OutputItem>,
    agentIndex: map<string, nat>,
    messageStarted: bool,
    emitted: seq<ResponsesStreamEvent>)

  // ---- What holds after any live events ----

  /** Everything read is accounted for. */
  ghost predicate Accounted(st: Stream, id: string, read: seq<PromptStreamEvent>, tools: bool, reasoning: bool) {
    && AnonymousAll(st.agentOutputs) == AgentItems(read, tools, false)
    && IndexAgrees(st.agentOutputs, st.agentIndex)
    && st.messageStarted == (Deltas(read) != [])
    && TextDeltas(st.emitted) == Deltas(read)
    && SideSteps(st.emitted) == AgentSides(read, tools, reasoning)
    && OneItemId(st.emitted, id)
    && AllMidStream(st.emitted)
  }

  /** The tool items come first in the snapshot, what is in surplus behind them. */
  predicate Aligned(shown: seq<OutputItem>, items: seq<OutputItem>, surplus: int) {
    && |shown| == |items| + surplus && surplus >= 0
    && shown[..|items|] == items
    && forall k :: |items| <= k < |shown| ==> !shown[k].FunctionCall?
  }

  /** The message stands in its slot until a tool takes it; before it is started
      there is none. */
  ghost predicate MessageInSlot(st: Stream, id: string) {
    if st.messageStarted then
      st.agentOutputs == [] ==> st.response.output != [] && st.response.output[0] == MessageText("", id)
    else forall k :: 0 <= k < |st.response.output| ==> !st.response.output[k].Message?
  }

  /** As long as the run fits, all is right so far; then an index is wrong. */
  ghost predicate Fitted(st: Stream, id: string, read: seq<PromptStreamEvent>, tools: bool, reasoning: bool) {
    if IndexesFit(read, tools, reasoning) then
      && IndicesRight(st.emitted)
      && MessageSteps(st.emitted) == OpenLifecycle(id, Deltas(read))
      && Aligned(st.response.output, st.agentOutputs, Surplus(read, tools, reasoning))
      && MessageInSlot(st, id)
    else !IndicesRight(st.emitted)
  }

  function FirstOf(shown: seq<OutputItem>): Option<OutputItem> {
    if shown == [] then None else Some(Anonymous(shown[0]))
  }

  /** What was closed where, and what stands in the first slot. */
  ghost predicate Placed(st: Stream, read: seq<PromptStreamEvent>, tools: bool, reasoning: bool) {
    && Dones(st.emitted) == ToolDones(read, tools)
    && FirstOf(st.response.output) == FirstSlot(read, tools, reasoning)
    && (Deltas(read) != [] ==> st.response.output != [])
  }

  /** What was announced, each item right before its content. */
  ghost predicate Told(st: Stream, read: seq<PromptStreamEvent>, tools: bool, reasoning: bool) {
    && Addeds(st.emitted) == Announced(read, tools, reasoning)
    && |st.response.output| == ShownCount(read, tools, reasoning)
    && Paired(st.emitted) && Arguments(st.emitted) == []
  }

  ghost predicate StreamInv(st: Stream, id: string, read: seq<PromptStreamEvent>, tools: bool, reasoning: bool) {
    && Accounted(st, id, read, tools, reasoning)
    && Fitted(st, id, read, tools, reasoning)
    && Placed(st, read, tools, reasoning)
    && Told(st, read, tools, reasoning)
  }

  /** Events were emitted that say this much more. */
  ghost predicate Grown(before: seq<ResponsesStreamEvent>, after: seq<ResponsesStreamEvent>,
                        deltas: seq<string>, sides: seq<SideStep>, added: seq<ItemAt>, dones: seq<ItemAt>)
  {
    && Addeds(after) == Addeds(before) + added && Arguments(after) == Arguments(before)
    && (Paired(before) ==> Paired(after))
    && TextDeltas(after) == TextDeltas(before) + deltas
    && SideSteps(after) == SideSteps(before) + sides
    && Dones(after) == Dones(before) + dones
    && (AllMidStream(before) ==> AllMidStream(after))
  }

  /** A placed stream stays placed when the closed items and the first slot move as
      the next event asks. */
  lemma {:induction false} StaysPlaced(st: Stream, st': Stream, read: seq<PromptStreamEvent>, e: PromptStreamEvent,
                    tools: bool, reasoning: bool)
    requires Placed(st, read, tools, reasoning)
    requires Dones(st'.emitted) == Dones(st.emitted) + ToolDoneOf(AgentItems(read, tools, false), e, tools)
    requires FirstOf(st'.response.output)
          == SlotAfter(FirstOf(st.response.output), AgentItems(read, tools, false), e, tools, reasoning)
    requires (st.response.output != [] || e.Delta?) ==> st'.response.output != []
    ensures Placed(st', read + [e], tools, reasoning)
  {
    hide Dones, ToolDones, FirstSlot, AgentItems, FirstOf, Deltas, SlotAfter, ToolDoneOf;
    PlaceMore(read, e, tools, reasoning);
    ReadMore(read, e, tools, reasoning);
  }

  lemma StaysTold(st: Stream, st': Stream, read: seq<PromptStreamEvent>, e: PromptStreamEvent,
                  tools: bool, reasoning: bool)
    requires Told(st, read, tools, reasoning)
    requires Addeds(st'.emitted) == Addeds(st.emitted) + AnnouncedOf(read, e, tools, reasoning)
    requires |st'.response.output|
          == |st.response.output| + if Announces(read, e, tools, reasoning) then 1 else 0
    requires Paired(st'.emitted) && Arguments(st'.emitted) == []
    ensures Told(st', read + [e], tools, reasoning)
  {
    hide Addeds, Announced, AnnouncedOf, ShownCount, Announces, Paired;
    AnnounceMore(read, e, tools, reasoning);
  }

  lemma {:induction false} StaysAccounted(st: Stream, st': Stream, id: string, read: seq<PromptStreamEvent>,
                                          e: PromptStreamEvent, tools: bool, reasoning: bool)
    requires Accounted(st, id, read, tools, reasoning)
    requires AnonymousAll(st'.agentOutputs) ==
             if e.AgentToolCall? && tools then WithTool(AgentItems(read, tools, false), e.tool)
             else AgentItems(read, tools, false)
    requires IndexAgrees(st'.agentOutputs, st'.agentIndex)
    requires st'.messageStarted == (st.messageStarted || e.Delta?)
    requires TextDeltas(st'.emitted) == TextDeltas(st.emitted) + if e.Delta? then [e.delta] else []
    requires SideSteps(st'.emitted) == SideSteps(st.emitted) + SideOfAgent(e, tools, reasoning)
    requires OneItemId(st'.emitted, id) && AllMidStream(st'.emitted)
    ensures Accounted(st', id, read + [e], tools, reasoning)
  {
    hide AnonymousAll, AgentItems, IndexAgrees, Deltas, TextDeltas, SideSteps, AgentSides, SideOfAgent;
    hide OneItemId, AllMidStream, WithTool;
    ReadMore(read, e, tools, reasoning);
  }

  // ---- Text ----

  /** The message was announced, and its text must come next. */
  ghost predicate AwaitsText(emitted: seq<ResponsesStreamEvent>, id: string) {
    && emitted != [] && Paired(emitted[..|emitted| - 1])
    && var last := emitted[|emitted| - 1];
       last.OutputItemAdded? && last.outputIndex == 0 && last.item == MessageText("", id)
  }

  lemma TextFollows(emitted: seq<ResponsesStreamEvent>, id: string, response: ResponseObject, delta: string)
    requires Paired(emitted) || AwaitsText(emitted, id)
    ensures Paired(emitted + [OutputTextDelta(id, response, 0, 0, delta)])
  {
    var e := OutputTextDelta(id, response, 0, 0, delta);
    if Paired(emitted) {
      PairedOne(e);
      PairedJoined(emitted, [e]);
    } else {
      var n := |emitted| - 1;
      PairedTwo(emitted[n], e);
      PairedJoined(emitted[..n], [emitted[n]] + [e]);
      assert emitted + [e] == emitted[..n] + ([emitted[n]] + [e]);
    }
  }

  method EmitFirstDelta(st: Stream, id: string) returns (st': Stream)
    ensures st' == st.(response := st.response.(output := st.response.output + [MessageText("", id)]),
                       messageStarted := true, emitted := st'.emitted)
    ensures TextDeltas(st'.emitted) == TextDeltas(st.emitted) && SideSteps(st'.emitted) == SideSteps(st.emitted)
    ensures Dones(st'.emitted) == Dones(st.emitted)
    ensures Addeds(st'.emitted) == Addeds(st.emitted) + [ItemAt(0, MessageText("", ""))]
    ensures Arguments(st'.emitted) == Arguments(st.emitted)
    ensures AllMidStream(st.emitted) ==> AllMidStream(st'.emitted)
    ensures Paired(st.emitted) ==> Paired(st'.emitted) || AwaitsText(st'.emitted, id)
    ensures OneItemId(st.emitted, id) ==> OneItemId(st'.emitted, id)
    ensures IndicesRight(st'.emitted)
      <==> IndicesRight(st.emitted) && st'.response.output[0] == MessageText("", id)
    ensures st.response.output == [] ==>
      MessageSteps(st'.emitted) == MessageSteps(st.emitted) + [Opened(MessageText("", id)), PartOpened("")]
  {
    hide TextDeltas, MessageSteps, SideSteps, Dones, Addeds, Paired, Arguments, IndicesRight, AllMidStream, OneItemId;
    var item := MessageText("", id);
    var response := st.response.(output := st.response.output + [item]);
    var added := OutputItemAdded(response, 0, item);
    Emit(st.emitted, added);
    var emitted := st.emitted + [added];
    assert emitted[..|st.emitted|] == st.emitted;
    if response.output[0].Message? && response.output[0].content != [] {
      var part := ContentPartAdded(response, 0, 0, response.output[0].content[0]);
      Emit(emitted, part);
      if Paired(st.emitted) {
        PairedTwo(added, part);
        PairedJoined(st.emitted, [added] + [part]);
        assert st.emitted + ([added] + [part]) == emitted + [part];
      }
      emitted := emitted + [part];
    }
    st' := st.(response := response, messageStarted := true, emitted := emitted);
  }

  method EmitDelta(st: Stream, id: string, delta: string) returns (st': Stream)
    ensures st' == st.(emitted := st'.emitted)
    ensures TextDeltas(st'.emitted) == TextDeltas(st.emitted) + [delta]
    ensures SideSteps(st'.emitted) == SideSteps(st.emitted)
    ensures Dones(st'.emitted) == Dones(st.emitted) && Addeds(st'.emitted) == Addeds(st.emitted)
    ensures Arguments(st'.emitted) == Arguments(st.emitted)
    ensures AllMidStream(st.emitted) ==> AllMidStream(st'.emitted)
    ensures Paired(st.emitted) || AwaitsText(st.emitted, id) ==> Paired(st'.emitted)
    ensures OneItemId(st.emitted, id) ==> OneItemId(st'.emitted, id)
    ensures IndicesRight(st'.emitted)
      <==> IndicesRight(st.emitted) && IndexRight(OutputTextDelta(id, st.response, 0, 0, delta))
    ensures MessageSteps(st'.emitted) == MessageSteps(st.emitted) + [Chunk(id, delta)]
  {
    hide TextDeltas, MessageSteps, SideSteps, Dones, Addeds, Paired, Arguments, IndicesRight, AllMidStream;
    hide OneItemId, IndexRight;
    var e := OutputTextDelta(id, st.response, 0, 0, delta);
    Emit(st.emitted, e);
    if Paired(st.emitted) || AwaitsText(st.emitted, id) {
      TextFollows(st.emitted, id, st.response, delta);
    }
    st' := st.(emitted := st.emitted + [e]);
  }

  lemma LifecycleGrows(id: string, deltas: seq<string>, delta: string)
    ensures OpenLifecycle(id, deltas + [delta]) ==
            (if deltas == [] then [Opened(MessageText("", id)), PartOpened("")] else OpenLifecycle(id, deltas))
            + [Chunk(id, delta)]
  {
    assert Chunks(id, deltas + [delta]) == Chunks(id, deltas) + [Chunk(id, delta)];
  }

  /** What was emitted for a delta, after the message was begun if it had to be. */
  ghost predicate DeltaEmitted(begun: Stream, st': Stream, id: string, delta: string) {
    && st' == begun.(emitted := st'.emitted)
    && (IndicesRight(st'.emitted)
        <==> IndicesRight(begun.emitted) && IndexRight(OutputTextDelta(id, begun.response, 0, 0, delta)))
    && MessageSteps(st'.emitted) == MessageSteps(begun.emitted) + [Chunk(id, delta)]
  }

  ghost predicate MessageBegun(st: Stream, begun: Stream, id: string) {
    && begun == st.(response := st.response.(output := st.response.output + [MessageText("", id)]),
                    messageStarted := true, emitted := begun.emitted)
    && (IndicesRight(begun.emitted)
        <==> IndicesRight(st.emitted) && begun.response.output[0] == MessageText("", id))
    && (st.response.output == [] ==>
          MessageSteps(begun.emitted) == MessageSteps(st.emitted) + [Opened(MessageText("", id)), PartOpened("")])
  }

  /** The message may be begun exactly while nothing is shown. */
  lemma {:induction false} FirstDeltaFits(st: Stream, begun: Stream, st': Stream, id: string,
                                          read: seq<PromptStreamEvent>, delta: string, tools: bool, reasoning: bool)
    requires Fitted(st, id, read, tools, reasoning) && !st.messageStarted && Deltas(read) == []
    requires st.agentOutputs == [] <==> NoTool(read, tools)
    requires st.agentOutputs != [] ==> st.agentOutputs[0].FunctionCall?
    requires MessageBegun(st, begun, id) && DeltaEmitted(begun, st', id, delta)
    ensures Fitted(st', id, read + [Delta(delta)], tools, reasoning)
  {
    hide Surplus, Known, NoTool, IndexesFit, MessageSteps, IndicesRight, OpenLifecycle, Deltas, Aligned;
    FitMore(read, Delta(delta), tools, reasoning);
    ReadMore(read, Delta(delta), tools, reasoning);
    if IndexesFit(read, tools, reasoning) {
      NothingShownYet(st, id, read, tools, reasoning);
      hide MessageInSlot;
      LifecycleGrows(id, [], delta);
      NothingOpen(id);
      if st.response.output == [] {
        assert begun.response.output == [MessageText("", id)];
        assert [] + [delta] == [delta];
        OnlyMessage(st', id);
      }
    }
  }

  lemma OnlyMessage(st: Stream, id: string)
    requires st.response.output == [MessageText("", id)] && st.agentOutputs == [] && st.messageStarted
    ensures Aligned(st.response.output, st.agentOutputs, 1) && MessageInSlot(st, id)
  {
  }

  /** Before any text the snapshot is empty exactly when no tool is shown and nothing
      is in surplus; whatever stands first in it is no message. */
  lemma {:induction false} NothingShownYet(st: Stream, id: string, read: seq<PromptStreamEvent>, tools: bool,
                                           reasoning: bool)
    requires Fitted(st, id, read, tools, reasoning) && IndexesFit(read, tools, reasoning) && !st.messageStarted
    requires st.agentOutputs == [] <==> NoTool(read, tools)
    ensures st.response.output == [] <==> NoTool(read, tools) && Surplus(read, tools, reasoning) == 0
    ensures st.response.output != [] ==> !st.response.output[0].Message?
  {
    hide Surplus, Known, NoTool, IndexesFit, MessageSteps, IndicesRight, OpenLifecycle, Deltas;
  }

  /** And more text may come exactly until a tool takes its slot. */
  lemma {:induction false} NextDeltaFits(st: Stream, st': Stream, id: string, read: seq<PromptStreamEvent>,
                      delta: string, tools: bool, reasoning: bool)
    requires Fitted(st, id, read, tools, reasoning) && st.messageStarted && Deltas(read) != []
    requires st.agentOutputs == [] <==> NoTool(read, tools)
    requires st.agentOutputs != [] ==> st.agentOutputs[0].FunctionCall?
    requires DeltaEmitted(st, st', id, delta)
    ensures Fitted(st', id, read + [Delta(delta)], tools, reasoning)
  {
    hide Surplus, Known, NoTool, IndexesFit, MessageSteps, IndicesRight;
    FitMore(read, Delta(delta), tools, reasoning);
    ReadMore(read, Delta(delta), tools, reasoning);
    LifecycleGrows(id, Deltas(read), delta);
    hide OpenLifecycle, Deltas;
    if IndexesFit(read, tools, reasoning) {
      assert st.agentOutputs != [] ==> st.response.output[0] == st.agentOutputs[0];
    }
  }

  lemma {:induction false} DeltaKeepsFitted(st: Stream, begun: Stream, st': Stream, id: string,
                                            read: seq<PromptStreamEvent>, delta: string, tools: bool, reasoning: bool)
    requires Fitted(st, id, read, tools, reasoning)
    requires AnonymousAll(st.agentOutputs) == AgentItems(read, tools, false)
    requires st.messageStarted == (Deltas(read) != [])
    requires if st.messageStarted then begun == st else MessageBegun(st, begun, id)
    requires DeltaEmitted(begun, st', id, delta)
    ensures Fitted(st', id, read + [Delta(delta)], tools, reasoning)
  {
    NoToolNoItem(read, tools);
    AnonymousLength(st.agentOutputs);
    if st.agentOutputs != [] {
      ToolInSlot(st, read, tools);
    }
    hide *;
    if st.messageStarted {
      NextDeltaFits(st, st', id, read, delta, tools, reasoning);
    } else {
      FirstDeltaFits(st, begun, st', id, read, delta, tools, reasoning);
    }
  }

  lemma NothingOpen(id: string)
    ensures OpenLifecycle(id, []) == []
  {
  }

  lemma {:induction false} ToolInSlot(st: Stream, read: seq<PromptStreamEvent>, tools: bool)
    requires AnonymousAll(st.agentOutputs) == AgentItems(read, tools, false) && st.agentOutputs != []
    ensures st.agentOutputs[0].FunctionCall?
  {
    ItemsAreTools(read, tools);
    assert Anonymous(st.agentOutputs[0]) == AnonymousAll(st.agentOutputs)[0];
    assert AgentItems(read, tools, false)[0] in AgentItems(read, tools, false);
  }

  lemma {:induction false} ItemsAreTools(events: seq<PromptStreamEvent>, tools: bool)
    ensures forall x :: x in AgentItems(events, tools, false) ==> x.FunctionCall?
  {
    if events != [] {
      ItemsAreTools(events[..|events| - 1], tools);
    }
  }

  method OnDelta(st: Stream, id: string, delta: string,
                 ghost read: seq<PromptStreamEvent>, ghost tools: bool, ghost reasoning: bool)
    returns (st': Stream)
    requires StreamInv(st, id, read, tools, reasoning)
    ensures StreamInv(st', id, read + [Delta(delta)], tools, reasoning)
  {
    hide TextDeltas, MessageSteps, SideSteps, Dones, Addeds, Paired, Arguments, IndicesRight, IndexRight;
    hide AllMidStream, OneItemId;
    hide Fitted, Placed, AnonymousAll, AgentItems, IndexAgrees, AgentSides, Deltas, SanitizeAgentName;
    var begun := st;
    if !st.messageStarted {
      begun := EmitFirstDelta(st, id);
    }
    st' := EmitDelta(begun, id, delta);
    DeltaKeepsFitted(st, begun, st', id, read, delta, tools, reasoning);
    StaysAccounted(st, st', id, read, Delta(delta), tools, reasoning);
    DeltaKeepsPlaced(st, st', id, read, delta, tools, reasoning);
    assert Announces(read, Delta(delta), tools, reasoning) <==> !st.messageStarted;
    StaysTold(st, st', read, Delta(delta), tools, reasoning);
  }

  lemma {:induction false} DeltaKeepsPlaced(st: Stream, st': Stream, id: string, read: seq<PromptStreamEvent>,
                                            delta: string, tools: bool, reasoning: bool)
    requires Placed(st, read, tools, reasoning)
    requires st.messageStarted == (Deltas(read) != []) && Dones(st'.emitted) == Dones(st.emitted)
    requires st'.response.output ==
             if st.messageStarted then st.response.output else st.response.output + [MessageText("", id)]
    ensures Placed(st', read + [Delta(delta)], tools, reasoning)
  {
    hide Dones, ToolDones, FirstSlot, AgentItems, Deltas;
    StaysPlaced(st, st', read, Delta(delta), tools, reasoning);
  }

  // ---- Thoughts ----

  method EmitThought(st: Stream, thought: string) returns (st': Stream, rs: string)
    ensures st' == st.(response := st.response.(output := st.response.output + [ReasoningItem(rs, thought)]),
                       emitted := st'.emitted)
    ensures Grown(st.emitted, st'.emitted, [], [Thought(thought)],
                  [ItemAt(|st.response.output|, ReasoningItem("", thought))], [])
    ensures MessageSteps(st'.emitted) == MessageSteps(st.emitted)
    ensures forall id :: OneItemId(st.emitted, id) ==> OneItemId(st'.emitted, id)
    ensures IndicesRight(st'.emitted) <==> IndicesRight(st.emitted)
  {
    hide TextDeltas, MessageSteps, SideSteps, Dones, Addeds, Paired, Arguments, IndicesRight, AllMidStream, OneItemId;
    rs := NewItemId("rs");
    var item := ReasoningItem(rs, thought);
    var at := |st.response.output|;
    var response := st.response.(output := st.response.output + [item]);
    var added, text := OutputItemAdded(response, at, item), ReasoningTextDelta(response, at, thought);
    Emit(st.emitted, added);
    Emit(st.emitted + [added], text);
    if Paired(st.emitted) {
      PairedTwo(added, text);
      PairedJoined(st.emitted, [added] + [text]);
      assert st.emitted + ([added] + [text]) == st.emitted + [added] + [text];
    }
    st' := st.(response := response, emitted := st.emitted + [added] + [text]);
  }

  lemma ThoughtKeepsFitted(st: Stream, st': Stream, id: string, read: seq<PromptStreamEvent>, thought: string,
                           rs: string, tools: bool)
    requires Fitted(st, id, read, tools, true)
    requires st' == st.(response := st.response.(output := st.response.output + [ReasoningItem(rs, thought)]),
                        emitted := st'.emitted)
    requires MessageSteps(st'.emitted) == MessageSteps(st.emitted)
    requires IndicesRight(st'.emitted) <==> IndicesRight(st.emitted)
    ensures Fitted(st', id, read + [ReasoningDelta(thought)], tools, true)
  {
    hide MessageSteps, IndicesRight, IndexesFit, Surplus, Known, Deltas, OpenLifecycle, NoTool;
    FitMore(read, ReasoningDelta(thought), tools, true);
    ReadMore(read, ReasoningDelta(thought), tools, true);
  }

  lemma ThoughtKeepsPlaced(st: Stream, st': Stream, read: seq<PromptStreamEvent>, thought: string, rs: string,
                           tools: bool)
    requires Placed(st, read, tools, true) && Dones(st'.emitted) == Dones(st.emitted)
    requires st'.response.output == st.response.output + [ReasoningItem(rs, thought)]
    ensures Placed(st', read + [ReasoningDelta(thought)], tools, true)
  {
    hide Dones, ToolDones, FirstSlot, AgentItems, Deltas;
    StaysPlaced(st, st', read, ReasoningDelta(thought), tools, true);
  }

  method OnReasoning(st: Stream, id: string, thought: string,
                     ghost read: seq<PromptStreamEvent>, ghost tools: bool)
    returns (st': Stream)
    requires StreamInv(st, id, read, tools, true)
    ensures StreamInv(st', id, read + [ReasoningDelta(thought)], tools, true)
  {
    hide TextDeltas, MessageSteps, SideSteps, Dones, Addeds, Paired, Arguments, IndicesRight, AllMidStream, OneItemId;
    hide Fitted, Placed, AnonymousAll, AgentItems, IndexAgrees, AgentSides, Deltas, SanitizeAgentName;
    var rs;
    st', rs := EmitThought(st, thought);
    ThoughtKeepsFitted(st, st', id, read, thought, rs, tools);
    StaysAccounted(st, st', id, read, ReasoningDelta(thought), tools, true);
    ThoughtKeepsPlaced(st, st', read, thought, rs, tools);
    StaysTold(st, st', read, ReasoningDelta(thought), tools, true);
  }

  // ---- Tools ----

  /** A started tool is appended to the snapshot, an update written to its slot if
      there is one. */
  function WithShown(shown: seq<OutputItem>, kind: AgentToolEventKind, at: nat, item: OutputItem): seq<OutputItem> {
    if kind.Started? then shown + [item] else if at < |shown| then shown[at := item] else shown
  }

  /** Where a tool item goes, and when that keeps the snapshot aligned. */
  lemma AlignedMore(shown: seq<OutputItem>, items: seq<OutputItem>, surplus: int, kind: AgentToolEventKind,
                    at: nat, item: OutputItem)
    requires Aligned(shown, items, surplus) && item.FunctionCall? && at <= |items|
    requires kind.Started? ==> at == |items|
    ensures var shown', items' := WithShown(shown, kind, at, item),
                                  if at < |items| then items[at := item] else items + [item];
      if (if kind.Started? then surplus == 0 else at < |items| || surplus > 0) then
        && at < |shown'| && shown'[at] == item
        && Aligned(shown', items', if at < |items| || kind.Started? then surplus else surplus - 1)
      else !(at < |shown'| && shown'[at] == item)
  {
    var shown' := WithShown(shown, kind, at, item);
    assert at < |items| ==> shown'[..|items|] == items[at := item];
    assert at == |items| && at < |shown'| && shown'[at] == item ==> shown'[..at + 1] == items + [item] by {
      if at == |items| && at < |shown'| && shown'[at] == item {
        assert shown'[..at] == items;
        assert shown'[..at + 1] == shown'[..at] + [item];
      }
    }
  }

  /** The snapshot and the events for one agent tool item stored at position at. */
  method EmitAgentTool(st: Stream, kind: AgentToolEventKind, at: nat, item: OutputItem)
    returns (response: ResponseObject, emitted: seq<ResponsesStreamEvent>)
    requires item.FunctionCall?
    ensures response == st.response.(output := WithShown(st.response.output, kind, at, item))
    ensures Grown(st.emitted, emitted, [], [ToolShown(Anonymous(item))],
                  if kind.Started? then [ItemAt(at, Anonymous(item))] else [], [ItemAt(at, Anonymous(item))])
    ensures MessageSteps(emitted) == MessageSteps(st.emitted)
    ensures forall id :: OneItemId(st.emitted, id) ==> OneItemId(emitted, id)
    ensures IndicesRight(emitted)
      <==> IndicesRight(st.emitted) && at < |response.output| && response.output[at] == item
  {
    hide TextDeltas, MessageSteps, SideSteps, Dones, Addeds, Paired, Arguments, IndicesRight, AllMidStream, OneItemId;
    response, emitted := st.response, st.emitted;
    if kind.Started? {
      response := response.(output := response.output + [item]);
      Emit(emitted, OutputItemAdded(response, at, item));
      emitted := emitted + [OutputItemAdded(response, at, item)];
    } else if at < |response.output| {
      response := response.(output := response.output[at := item]);
    }
    var done := OutputItemDone(response, at, item);
    Emit(emitted, done);
    if Paired(st.emitted) {
      if kind.Started? {
        var added := OutputItemAdded(response, at, item);
        PairedTwo(added, done);
        PairedJoined(st.emitted, [added] + [done]);
        assert st.emitted + ([added] + [done]) == emitted + [done];
      } else {
        PairedOne(done);
        PairedJoined(st.emitted, [done]);
      }
    }
    emitted := emitted + [done];
  }

  /** The item stored at position at for a tool event. */
  ghost predicate Stored(st: Stream, st': Stream, ev: AgentToolEvent, at: nat) {
    && at == PlaceOf(AnonymousAll(st.agentOutputs), ev)
    && at < |st'.agentOutputs| && Anonymous(st'.agentOutputs[at]) == ToolItem(ev, "")
    && st'.agentOutputs[at].FunctionCall?
    && st'.agentOutputs == (if at < |st.agentOutputs| then st.agentOutputs[at := st'.agentOutputs[at]]
                            else st.agentOutputs + [st'.agentOutputs[at]])
    && st'.response.output == WithShown(st.response.output, ev.kind, at, st'.agentOutputs[at])
    && st'.messageStarted == st.messageStarted
  }

  lemma {:induction false} ToolKeepsFitted(st: Stream, st': Stream, id: string, read: seq<PromptStreamEvent>,
                                           ev: AgentToolEvent, at: nat, reasoning: bool)
    requires Fitted(st, id, read, true, reasoning) && Stored(st, st', ev, at)
    requires AnonymousAll(st.agentOutputs) == AgentItems(read, true, false)
    requires MessageSteps(st'.emitted) == MessageSteps(st.emitted)
    requires IndicesRight(st'.emitted) <==>
               IndicesRight(st.emitted) && at < |st'.response.output| && st'.response.output[at] == st'.agentOutputs[at]
    ensures Fitted(st', id, read + [AgentToolCall(ev)], true, reasoning)
  {
    hide MessageSteps, IndicesRight, AgentItems, LastTool, IndexesFit, Surplus, Known, NoTool, Deltas;
    hide OpenLifecycle, ToolItem, AnonymousAll;
    FitMore(read, AgentToolCall(ev), true, reasoning);
    ReadMore(read, AgentToolCall(ev), true, reasoning);
    KnownIsListed(read, ev.toolCallId);
    AnonymousLength(st.agentOutputs);
    if IndexesFit(read, true, reasoning) {
      AlignedMore(st.response.output, st.agentOutputs, Surplus(read, true, reasoning), ev.kind, at,
                  st'.agentOutputs[at]);
      ToolKeepsSlot(st, st', id, ev, at);
      hide Aligned, WithShown, MessageInSlot;
    }
  }

  lemma ToolKeepsSlot(st: Stream, st': Stream, id: string, ev: AgentToolEvent, at: nat)
    requires MessageInSlot(st, id) && Stored(st, st', ev, at)
    ensures MessageInSlot(st', id)
  {
    hide PlaceOf, ToolItem, AnonymousAll;
  }

  lemma AnonymousLength(items: seq<OutputItem>)
    ensures |AnonymousAll(items)| == |items|
  {
  }

  lemma {:induction false} ToolKeepsPlaced(st: Stream, st': Stream, read: seq<PromptStreamEvent>, ev: AgentToolEvent,
                                           at: nat, reasoning: bool)
    requires Placed(st, read, true, reasoning) && Stored(st, st', ev, at)
    requires AnonymousAll(st.agentOutputs) == AgentItems(read, true, false)
    requires Dones(st'.emitted) == Dones(st.emitted) + [ItemAt(at, Anonymous(st'.agentOutputs[at]))]
    ensures Placed(st', read + [AgentToolCall(ev)], true, reasoning)
  {
    hide Dones, ToolDones, FirstSlot, AgentItems, Deltas, PlaceOf, ToolItem, AnonymousAll;
    StaysPlaced(st, st', read, AgentToolCall(ev), true, reasoning);
  }

  method OnAgentTool(st: Stream, id: string, ev: AgentToolEvent,
                     ghost read: seq<PromptStreamEvent>, ghost reasoning: bool)
    returns (st': Stream)
    requires StreamInv(st, id, read, true, reasoning)
    ensures StreamInv(st', id, read + [AgentToolCall(ev)], true, reasoning)
  {
    hide TextDeltas, MessageSteps, SideSteps, Dones, Addeds, Paired, Arguments, IndicesRight, AllMidStream;
    hide OneItemId, WithShown, PlaceOf;
    hide Announced, ShownCount;
    hide Fitted, Placed, AnonymousAll, AgentItems, IndexAgrees, AgentSides, Deltas, ToolItem, WithTool, LastTool;
    var outputs, index, at := ApplyAgentToolEvent(st.agentOutputs, st.agentIndex, ev);
    var response, emitted := EmitAgentTool(st, ev.kind, at, outputs[at]);
    st' := st.(response := response, agentOutputs := outputs, agentIndex := index, emitted := emitted);
    ToolKeepsFitted(st, st', id, read, ev, at, reasoning);
    StaysAccounted(st, st', id, read, AgentToolCall(ev), true, reasoning);
    ToolKeepsPlaced(st, st', read, ev, at, reasoning);
    ShownLength(st.response.output, ev.kind, at, outputs[at]);
    StaysTold(st, st', read, AgentToolCall(ev), true, reasoning);
  }

  lemma ShownLength(shown: seq<OutputItem>, kind: AgentToolEventKind, at: nat, item: OutputItem)
    ensures |WithShown(shown, kind, at, item)| == |shown| + if kind.Started? then 1 else 0
  {
  }

  // ---- The rest ----

  lemma SilentPlaced(st: Stream, read: seq<PromptStreamEvent>, e: PromptStreamEvent, tools: bool, reasoning: bool)
    requires Placed(st, read, tools, reasoning)
    requires e.Usage? || (e.ReasoningDelta? && !reasoning) || (e.AgentToolCall? && !tools)
    ensures Placed(st, read + [e], tools, reasoning)
  {
    hide Dones, ToolDones, FirstSlot, AgentItems, Deltas;
    StaysPlaced(st, st, read, e, tools, reasoning);
  }

  lemma SilentFitted(st: Stream, id: string, read: seq<PromptStreamEvent>, e: PromptStreamEvent,
                     tools: bool, reasoning: bool)
    requires Fitted(st, id, read, tools, reasoning)
    requires e.Usage? || (e.ReasoningDelta? && !reasoning) || (e.AgentToolCall? && !tools)
    ensures Fitted(st, id, read + [e], tools, reasoning)
  {
    hide MessageSteps, IndicesRight, IndexesFit, Surplus, Known, Deltas, OpenLifecycle, NoTool, Aligned;
    FitMore(read, e, tools, reasoning);
    ReadMore(read, e, tools, reasoning);
  }

  /** A live event that emits nothing. */
  lemma Silent(st: Stream, id: string, read: seq<PromptStreamEvent>, e: PromptStreamEvent, tools: bool, reasoning: bool)
    requires StreamInv(st, id, read, tools, reasoning)
    requires e.Usage? || (e.ReasoningDelta? && !reasoning) || (e.AgentToolCall? && !tools)
    ensures StreamInv(st, id, read + [e], tools, reasoning)
  {
    hide TextDeltas, SideSteps, AllMidStream, OneItemId, Fitted, Placed, AnonymousAll, AgentItems, IndexAgrees;
    hide AgentSides, Deltas;
    SilentFitted(st, id, read, e, tools, reasoning);
    StaysAccounted(st, st, id, read, e, tools, reasoning);
    SilentPlaced(st, read, e, tools, reasoning);
    StaysTold(st, st, read, e, tools, reasoning);
  }

  // ---- The end ----

  /** The done event of the first slot, if the message was started. */
  method CloseSlot(st: Stream, text: string) returns (emitted: seq<ResponsesStreamEvent>)
    ensures if st.messageStarted && st.response.output != [] then
        var closed := WithText(st.response.output[0], text);
        && Grown(st.emitted, emitted, [], if closed.FunctionCall? then [ToolShown(Anonymous(closed))] else [],
                 [], [ItemAt(0, Anonymous(closed))])
        && MessageSteps(emitted) == MessageSteps(st.emitted) + (if closed.Message? then [Closed(closed)] else [])
        && (IndicesRight(emitted) <==> IndicesRight(st.emitted))
        && forall id :: OneItemId(st.emitted, id) ==> OneItemId(emitted, id)
      else emitted == st.emitted
  {
    hide TextDeltas, MessageSteps, SideSteps, Dones, Addeds, Paired, Arguments, IndicesRight, AllMidStream, OneItemId;
    emitted := st.emitted;
    if st.messageStarted {
      var response := st.response;
      if response.output != [] && response.output[0].Message? && response.output[0].content != [] {
        var item := response.output[0].(content := response.output[0].content[0 := text]);
        response := response.(output := response.output[0 := item]);
      }
      if response.output != [] {
        var e := OutputItemDone(response, 0, response.output[0]);
        Emit(emitted, e);
        if Paired(emitted) {
          PairedOne(e);
          PairedJoined(emitted, [e]);
        }
        emitted := emitted + [e];
      }
    }
  }

  /** What holds of the events of a finished run. */
  ghost predicate Finished(emitted: seq<ResponsesStreamEvent>, id: string, text: string,
                           read: seq<PromptStreamEvent>, tools: bool, reasoning: bool)
  {
    && TextDeltas(emitted) == Deltas(read)
    && SideSteps(emitted) == AgentSides(read, tools, reasoning) + SlotSide(read, tools, reasoning)
    && Addeds(emitted) == Announced(read, tools, reasoning) && Paired(emitted) && Arguments(emitted) == []
    && Dones(emitted) == ToolDones(read, tools) + SlotDone(read, tools, reasoning, text)
    && OneItemId(emitted, id) && AllMidStream(emitted)
    && (IndicesRight(emitted) <==> IndexesFit(read, tools, reasoning))
    && (Faithful(emitted, Deltas(read), text) <==> InStep(read, tools, reasoning))
  }

  method CloseMessage(st: Stream, id: string, text: string,
                      ghost read: seq<PromptStreamEvent>, ghost tools: bool, ghost reasoning: bool)
    returns (emitted: seq<ResponsesStreamEvent>)
    requires StreamInv(st, id, read, tools, reasoning)
    ensures Finished(emitted, id, text, read, tools, reasoning)
  {
    hide TextDeltas, MessageSteps, SideSteps, Dones, Addeds, Paired, Arguments, IndicesRight, AllMidStream;
    hide OneItemId, Fitted, Faithful, InStep;
    hide AnonymousAll, AgentItems, IndexAgrees, AgentSides, Deltas, ToolDones, FirstSlot, IndexesFit;
    emitted := CloseSlot(st, text);
    ClosedFitted(st, emitted, id, text, read, tools, reasoning);
    SlotAnonymous(st, text);
  }

  lemma SlotAnonymous(st: Stream, text: string)
    ensures st.response.output != [] ==>
      var slot := st.response.output[0];
      && Anonymous(WithText(slot, text)) == WithText(Anonymous(slot), text)
      && (slot.FunctionCall? ==> WithText(slot, text) == slot)
      && WithText(slot, text).FunctionCall? == slot.FunctionCall? == Anonymous(slot).FunctionCall?
  {
  }

  /** Closing leaves the lifecycle right exactly when the message is in its slot. */
  lemma {:induction false} ClosedFitted(st: Stream, emitted: seq<ResponsesStreamEvent>, id: string, text: string,
                     read: seq<PromptStreamEvent>, tools: bool, reasoning: bool)
    requires Fitted(st, id, read, tools, reasoning)
    requires AnonymousAll(st.agentOutputs) == AgentItems(read, tools, false)
    requires st.messageStarted == (Deltas(read) != [])
    requires st.messageStarted ==> st.response.output != []
    requires if st.messageStarted then
        var closed := WithText(st.response.output[0], text);
        && MessageSteps(emitted) == MessageSteps(st.emitted) + (if closed.Message? then [Closed(closed)] else [])
        && (IndicesRight(emitted) <==> IndicesRight(st.emitted))
      else emitted == st.emitted
    ensures IndicesRight(emitted) <==> IndexesFit(read, tools, reasoning)
    ensures Faithful(emitted, Deltas(read), text) <==> InStep(read, tools, reasoning)
  {
    hide MessageSteps, IndicesRight, IndexesFit, AgentItems, Deltas, NoTool, Surplus;
    NoToolNoItem(read, tools);
    AnonymousLength(st.agentOutputs);
    hide AnonymousAll;
    if IndexesFit(read, tools, reasoning) {
      if Deltas(read) == [] {
        NothingOpen(id);
        assert Lifecycle(id, [], text) == [];
      } else if st.agentOutputs == [] {
        assert [""][0 := text] == [text];
        assert WithText(MessageText("", id), text) == MessageText(text, id);
        assert MessageSteps(emitted) == Lifecycle(id, Deltas(read), text);
      } else {
        assert st.response.output[0] == st.agentOutputs[0];
        ToolInSlot(st, read, tools);
        NeverClosed(id, Deltas(read), text, MessageSteps(emitted));
      }
    }
  }

  lemma NeverClosed(id: string, deltas: seq<string>, text: string, steps: seq<MessageStep>)
    requires deltas != [] && steps == OpenLifecycle(id, deltas) + []
    ensures forall other :: steps != Lifecycle(other, deltas, text)
  {
    assert steps == OpenLifecycle(id, deltas);
    forall other ensures steps != Lifecycle(other, deltas, text) {
      assert |Lifecycle(other, deltas, text)| == |steps| + 1;
    }
  }

  lemma StreamOpens(st: Stream, id: string, tools: bool, reasoning: bool)
    requires st.response.output == [] && st == Stream(st.response, [], map[], false, [])
    ensures StreamInv(st, id, [], tools, reasoning)
  {
    Silence();
    NoItemsYet();
    hide TextDeltas, MessageSteps, SideSteps, Dones, Addeds, Paired, Arguments, IndicesRight, AllMidStream, IndexAgrees;
  }

  lemma StreamFails(st: Stream, id: string, read: seq<PromptStreamEvent>, tools: bool, reasoning: bool)
    requires StreamInv(st, id, read, tools, reasoning)
    ensures Unfinished(st.emitted, id, read, tools, reasoning)
  {
    hide TextDeltas, MessageSteps, SideSteps, IndicesRight, AllMidStream, OneItemId, AnonymousAll, AgentItems;
    hide IndexAgrees, AgentSides, Deltas, IndexesFit, OpenLifecycle, Aligned, Dones, ToolDones, FirstSlot;
  }

  /** What holds of the events of a run that fails. */
  ghost predicate Unfinished(emitted: seq<ResponsesStreamEvent>, id: string,
                             read: seq<PromptStreamEvent>, tools: bool, reasoning: bool)
  {
    && TextDeltas(emitted) == Deltas(read)
    && SideSteps(emitted) == AgentSides(read, tools, reasoning)
    && Addeds(emitted) == Announced(read, tools, reasoning) && Paired(emitted) && Arguments(emitted) == []
    && Dones(emitted) == ToolDones(read, tools)
    && OneItemId(emitted, id) && AllMidStream(emitted)
    && (IndicesRight(emitted) <==> IndexesFit(read, tools, reasoning))
    && (FaithfulSoFar(emitted, Deltas(read)) <==> IndexesFit(read, tools, reasoning))
  }

  /** The same drain, and what its events say: the text, every thought and tool and
      every closed item, whether or not the run fails; and the exact conditions for
      right indexes and a right message lifecycle. */
  method DrainStream(events: seq<PromptStreamEvent>, created: ResponseObject,
                     streamAgentTools: bool, includeReasoning: bool)
    returns (r: Result<Drained, string>, emitted: seq<ResponsesStreamEvent>)
    requires created.output == []
    ensures DrainedAs(r, events, streamAgentTools, false)
    ensures r.Success? ==>
      exists id :: Finished(emitted, id, r.value.text, Live(events), streamAgentTools, includeReasoning)
    ensures r.Failure? ==>
      exists id :: Unfinished(emitted, id, Live(events), streamAgentTools, includeReasoning)
  {
    hide AgentItems, IndexAgrees, AnonymousAll, StreamInv, TextOf, LastUsage, Finished, Unfinished, Deltas;
    NothingRead();
    var text, usage, finish := "", NO_USAGE, Stop;
    var id := NewItemId("msg");
    var st := Stream(created, [], map[], false, []);
    StreamOpens(st, id, streamAgentTools, includeReasoning);
    var i := 0;
    while i < |events|
      invariant 0 <= i <= |Live(events)|
      invariant text == TextOf(events[..i])
      invariant usage == LastUsage(events[..i])
      invariant finish == Stop
      invariant StreamInv(st, id, events[..i], streamAgentTools, includeReasoning)
    {
      LiveStep(events, i);
      ReadStep(events, i);
      ghost var read := events[..i];
      assert events[..i + 1] == read + [events[i]];
      match events[i] {
        case Delta(delta) =>
          text := text + delta;
          st := OnDelta(st, id, delta, read, streamAgentTools, includeReasoning);
        case ReasoningDelta(thought) =>
          if includeReasoning {
            st := OnReasoning(st, id, thought, read, streamAgentTools);
          } else {
            Silent(st, id, read, events[i], streamAgentTools, includeReasoning);
          }
        case AgentToolCall(ev) =>
          if streamAgentTools {
            st := OnAgentTool(st, id, ev, read, includeReasoning);
          } else {
            Silent(st, id, read, events[i], streamAgentTools, includeReasoning);
          }
        case Usage(u) =>
          usage := u;
          Silent(st, id, read, events[i], streamAgentTools, includeReasoning);
        case Done(reason, fullText, u) =>
          text, usage, finish := fullText, u, reason;
          break;
        case Error(e) =>
          StreamFails(st, id, read, streamAgentTools, includeReasoning);
          return Failure(e), st.emitted;
      }
      i := i + 1;
    }
    assert Live(events) == events[..i];
    Kept(st, id, Live(events), streamAgentTools, includeReasoning);
    emitted := CloseMessage(st, id, text, Live(events), streamAgentTools, includeReasoning);
    r := Success(Drained(text, usage, finish, st.agentOutputs, st.agentIndex));
  }

  lemma {:induction false} Kept(st: Stream, id: string, read: seq<PromptStreamEvent>, tools: bool, reasoning: bool)
    requires StreamInv(st, id, read, tools, reasoning)
    ensures AnonymousAll(st.agentOutputs) == AgentItems(read, tools, false)
    ensures IndexAgrees(st.agentOutputs, st.agentIndex)
  {
  }

  // ---- Where a stream goes wrong ----

  /** A thought before the text: the message is announced in the thought's slot. */
  method ThoughtBeforeText(created: ResponseObject, thought: string, text: string, tools: bool)
    returns (emitted: seq<ResponsesStreamEvent>)
    requires created.output == []
    ensures TextDeltas(emitted) == [text] && !IndicesRight(emitted) && !Faithful(emitted, [text], text)
  {
    hide *;
    var events := [ReasoningDelta(thought), Delta(text), Done(Stop, text, NO_USAGE)];
    ThoughtFirst(thought, text, tools);
    var r;
    r, emitted := DrainStream(events, created, tools, true);
    WhatFinished(events, r, emitted, tools, true);
  }

  lemma {:induction false} ThoughtFirst(thought: string, text: string, tools: bool)
    ensures var events := [ReasoningDelta(thought), Delta(text), Done(Stop, text, NO_USAGE)];
      && Collect(events) == Success(Collected(text, NO_USAGE, Stop))
      && Deltas(Live(events)) == [text]
      && !IndexesFit(Live(events), tools, true) && !InStep(Live(events), tools, true)
  {
    var thinking, saying := ReasoningDelta(thought), Delta(text);
    var events := [thinking, saying, Done(Stop, text, NO_USAGE)];
    LiveUnique(events, 2);
    ReadMore([], thinking, tools, true);
    ReadMore([thinking], saying, tools, true);
    FitMore([], thinking, tools, true);
    FitMore([thinking], saying, tools, true);
    assert Live(events) == [thinking] + [saying] && [thinking] == [] + [thinking];
  }

  lemma {:induction false} WhatFinished(events: seq<PromptStreamEvent>, r: Result<Drained, string>,
                                        emitted: seq<ResponsesStreamEvent>, tools: bool, reasoning: bool)
    requires Collect(events).Success? && DrainedAs(r, events, tools, false)
    requires r.Success? ==> exists id :: Finished(emitted, id, r.value.text, Live(events), tools, reasoning)
    ensures r.Success? && r.value.text == Collect(events).value.text
    ensures TextDeltas(emitted) == Deltas(Live(events))
    ensures IndicesRight(emitted) <==> IndexesFit(Live(events), tools, reasoning)
    ensures Faithful(emitted, Deltas(Live(events)), r.value.text) <==> InStep(Live(events), tools, reasoning)
  {
    hide Faithful, InStep, IndicesRight, IndexesFit, TextDeltas, Deltas, Live, SideSteps, Dones, IndexAgrees;
  }

  /** No text at all: an update of a tool nobody started is closed at an index the
      snapshot does not have. */
  method UpdateOfUnknownTool(created: ResponseObject, ev: AgentToolEvent, reasoning: bool)
    returns (emitted: seq<ResponsesStreamEvent>)
    requires created.output == [] && ev.kind.Updated?
    ensures !IndicesRight(emitted)
  {
    hide *;
    var events := [AgentToolCall(ev), Done(Stop, "", NO_USAGE)];
    UnknownUpdate(ev, reasoning);
    var r;
    r, emitted := DrainStream(events, created, true, reasoning);
    WhatFinished(events, r, emitted, true, reasoning);
  }

  lemma {:induction false} UnknownUpdate(ev: AgentToolEvent, reasoning: bool)
    requires ev.kind.Updated?
    ensures var events := [AgentToolCall(ev), Done(Stop, "", NO_USAGE)];
      Collect(events).Success? && !IndexesFit(Live(events), true, reasoning)
  {
    var updating := AgentToolCall(ev);
    var events := [updating, Done(Stop, "", NO_USAGE)];
    LiveUnique(events, 1);
    FitMore([], updating, true, reasoning);
    assert Live(events) == [] + [updating];
  }
}
