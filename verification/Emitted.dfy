/** What a client can check on the events of a streamed response
    (crates/copenai-openai/src/responses/sse.rs). */
module Emitted {
  import opened Items

  predicate IndexRight(e: ResponsesStreamEvent) {
    match e
    case OutputItemAdded(r, i, item) => i < |r.output| && r.output[i] == item
    case OutputItemDone(r, i, item) => i < |r.output| && r.output[i] == item
    case ContentPartAdded(r, i, c, part) =>
      i < |r.output| && r.output[i].Message? && c < |r.output[i].content| && r.output[i].content[c] == part
    case OutputTextDelta(id, r, i, c, _) =>
      i < |r.output| && r.output[i].Message? && r.output[i].id == id && c < |r.output[i].content|
    case ReasoningTextDelta(r, i, _) => i < |r.output| && r.output[i].Reasoning?
    case FunctionCallArgumentsDelta(id, r, i, _) =>
      i < |r.output| && r.output[i].FunctionCall? && r.output[i].id == id
    case FunctionCallArgumentsDone(r, i, arguments) =>
      i < |r.output| && r.output[i].FunctionCall? && r.output[i].arguments == arguments
    case _ => true
  }

  /** Every emitted index points at the emitted item in the snapshot it travels with. */
  ghost predicate IndicesRight(emitted: seq<ResponsesStreamEvent>) {
    forall k :: 0 <= k < |emitted| ==> IndexRight(emitted[k])
  }

  function TextDeltas(emitted: seq<ResponsesStreamEvent>): seq<string> {
    if emitted == [] then [] else
      var last := emitted[|emitted| - 1];
      TextDeltas(emitted[..|emitted| - 1]) + (if last.OutputTextDelta? then [last.delta] else [])
  }

  datatype MessageStep =
    | Opened(item: OutputItem)
    | PartOpened(part: string)
    | Chunk(itemId: string, delta: string)
    | Closed(item: OutputItem)

  function StepOf(e: ResponsesStreamEvent): seq<MessageStep> {
    match e
    case OutputItemAdded(_, _, item) => if item.Message? then [Opened(item)] else []
    case ContentPartAdded(_, _, _, part) => [PartOpened(part)]
    case OutputTextDelta(id, _, _, _, delta) => [Chunk(id, delta)]
    case OutputItemDone(_, _, item) => if item.Message? then [Closed(item)] else []
    case _ => []
  }

  /** The part of the stream that is about the message. */
  function MessageSteps(emitted: seq<ResponsesStreamEvent>): seq<MessageStep> {
    if emitted == [] then [] else
      MessageSteps(emitted[..|emitted| - 1]) + StepOf(emitted[|emitted| - 1])
  }

  /** What else a client is shown while the answer is written. */
  datatype SideStep = Thought(delta: string) | ToolShown(item: OutputItem)

  function SideOf(e: ResponsesStreamEvent): seq<SideStep> {
    match e
    case ReasoningTextDelta(_, _, delta) => [Thought(delta)]
    case OutputItemDone(_, _, item) => if item.FunctionCall? then [ToolShown(Anonymous(item))] else []
    case _ => []
  }

  function SideSteps(emitted: seq<ResponsesStreamEvent>): seq<SideStep> {
    if emitted == [] then [] else SideSteps(emitted[..|emitted| - 1]) + SideOf(emitted[|emitted| - 1])
  }

  /** An item at an output index. */
  datatype ItemAt = ItemAt(at: nat, item: OutputItem)

  /** The announced items, with the output index each is announced at. */
  function Addeds(emitted: seq<ResponsesStreamEvent>): seq<ItemAt> {
    if emitted == [] then [] else Addeds(emitted[..|emitted| - 1]) + AddedOf(emitted[|emitted| - 1])
  }

  function AddedOf(e: ResponsesStreamEvent): seq<ItemAt> {
    if e.OutputItemAdded? then [ItemAt(e.outputIndex, Anonymous(e.item))] else []
  }

  /** The arguments of calls as they are streamed. */
  datatype ArgumentStep = Piece(at: nat, delta: string) | Whole(at: nat, arguments: string)

  function Arguments(emitted: seq<ResponsesStreamEvent>): seq<ArgumentStep> {
    if emitted == [] then [] else Arguments(emitted[..|emitted| - 1]) + ArgumentsOf(emitted[|emitted| - 1])
  }

  function ArgumentsOf(e: ResponsesStreamEvent): seq<ArgumentStep> {
    match e
    case FunctionCallArgumentsDelta(_, _, at, delta) => [Piece(at, delta)]
    case FunctionCallArgumentsDone(_, at, arguments) => [Whole(at, arguments)]
    case _ => []
  }

  /** What may come right after an item is announced: its own content, or its end,
      at the same index. */
  predicate Follows(added: ResponsesStreamEvent, next: ResponsesStreamEvent)
    requires added.OutputItemAdded?
  {
    var at, item := added.outputIndex, added.item;
    match next
    case ReasoningTextDelta(_, i, delta) => i == at && item.Reasoning? && item.summary == delta
    case OutputItemDone(_, i, done) => i == at && done == item && item.FunctionCall?
    case ContentPartAdded(_, i, _, _) => i == at && item.Message?
    case OutputTextDelta(id, _, i, _, _) => i == at && item.Message? && item.id == id
    case FunctionCallArgumentsDelta(id, _, i, delta) =>
      i == at && item.FunctionCall? && item.id == id && item.arguments == delta
    case FunctionCallArgumentsDone(_, i, arguments) => i == at && item.FunctionCall? && item.arguments == arguments
    case _ => false
  }

  /** Nothing comes between the announcement of an item and its content. */
  ghost predicate Paired(emitted: seq<ResponsesStreamEvent>) {
    forall k :: 0 <= k < |emitted| && emitted[k].OutputItemAdded? ==>
                  k + 1 < |emitted| && Follows(emitted[k], emitted[k + 1])
  }

  lemma PairedJoined(a: seq<ResponsesStreamEvent>, b: seq<ResponsesStreamEvent>)
    requires Paired(a) && Paired(b)
    ensures Paired(a + b)
  {
    var all := a + b;
    forall k | 0 <= k < |all| && all[k].OutputItemAdded?
      ensures k + 1 < |all| && Follows(all[k], all[k + 1])
    {
      if k < |a| {
        assert a[k].OutputItemAdded?;
      } else {
        assert b[k - |a|].OutputItemAdded?;
      }
    }
  }

  lemma PairedOne(e: ResponsesStreamEvent)
    ensures Paired([e]) <==> !e.OutputItemAdded?
  {
    assert [e][0] == e;
  }

  lemma PairedTwo(e: ResponsesStreamEvent, next: ResponsesStreamEvent)
    requires e.OutputItemAdded? && Follows(e, next) && !next.OutputItemAdded?
    ensures Paired([e] + [next])
  {
  }

  /** The closed items, with the output index each is closed at. */
  function Dones(emitted: seq<ResponsesStreamEvent>): seq<ItemAt> {
    if emitted == [] then [] else Dones(emitted[..|emitted| - 1]) + DoneOf(emitted[|emitted| - 1])
  }

  function DoneOf(e: ResponsesStreamEvent): seq<ItemAt> {
    if e.OutputItemDone? then [ItemAt(e.outputIndex, Anonymous(e.item))] else []
  }

  function Chunks(id: string, deltas: seq<string>): (r: seq<MessageStep>)
    ensures |r| == |deltas|
    ensures forall k :: 0 <= k < |r| ==> r[k] == Chunk(id, deltas[k])
  {
    seq(|deltas|, k requires 0 <= k < |deltas| => Chunk(id, deltas[k]))
  }

  function OpenLifecycle(id: string, deltas: seq<string>): seq<MessageStep> {
    if deltas == [] then [] else [Opened(MessageText("", id)), PartOpened("")] + Chunks(id, deltas)
  }

  /** Added, part added, every delta, then one done with the final text, all for
      one item id; nothing at all without a delta. */
  function Lifecycle(id: string, deltas: seq<string>, text: string): seq<MessageStep> {
    OpenLifecycle(id, deltas) + (if deltas == [] then [] else [Closed(MessageText(text, id))])
  }

  ghost predicate Faithful(emitted: seq<ResponsesStreamEvent>, deltas: seq<string>, text: string) {
    && IndicesRight(emitted)
    && exists id :: MessageSteps(emitted) == Lifecycle(id, deltas, text)
  }

  /** Protocol events between the opening and the closing of a stream. */
  predicate MidStream(e: ResponsesStreamEvent) {
    !e.Created? && !e.InProgress? && !e.Completed? && !e.FailedResponse?
  }

  ghost predicate AllMidStream(emitted: seq<ResponsesStreamEvent>) {
    forall k :: 0 <= k < |emitted| ==> MidStream(emitted[k])
  }

  ghost predicate OneItemId(emitted: seq<ResponsesStreamEvent>, id: string) {
    forall e :: e in emitted && e.OutputTextDelta? ==> e.itemId == id
  }

  /** The message was opened in its slot and has not been closed. */
  ghost predicate FaithfulSoFar(emitted: seq<ResponsesStreamEvent>, deltas: seq<string>) {
    && IndicesRight(emitted)
    && exists id :: MessageSteps(emitted) == OpenLifecycle(id, deltas)
  }

  /** Right in itself, and about no message. */
  ghost predicate Wordless(emitted: seq<ResponsesStreamEvent>) {
    IndicesRight(emitted) && AllMidStream(emitted) && TextDeltas(emitted) == [] && MessageSteps(emitted) == []
  }

  /** What one more event means for everything said about a stream. */
  lemma {:induction false} Emit(emitted: seq<ResponsesStreamEvent>, e: ResponsesStreamEvent)
    ensures TextDeltas(emitted + [e]) == TextDeltas(emitted) + (if e.OutputTextDelta? then [e.delta] else [])
    ensures MessageSteps(emitted + [e]) == MessageSteps(emitted) + StepOf(e)
    ensures SideSteps(emitted + [e]) == SideSteps(emitted) + SideOf(e)
    ensures Dones(emitted + [e]) == Dones(emitted) + DoneOf(e)
    ensures Addeds(emitted + [e]) == Addeds(emitted) + AddedOf(e)
    ensures Arguments(emitted + [e]) == Arguments(emitted) + ArgumentsOf(e)
    ensures IndicesRight(emitted + [e]) <==> IndicesRight(emitted) && IndexRight(e)
    ensures AllMidStream(emitted + [e]) <==> AllMidStream(emitted) && MidStream(e)
    ensures forall id :: OneItemId(emitted + [e], id) <==>
                         OneItemId(emitted, id) && (e.OutputTextDelta? ==> e.itemId == id)
  {
    hide TextDeltas, MessageSteps, SideSteps, Dones, Addeds, Arguments, IndicesRight, AllMidStream, OneItemId;
    EmitText(emitted, e);
    EmitItems(emitted, e);
    EmitKeeps(emitted, e);
  }

  lemma {:induction false} EmitText(emitted: seq<ResponsesStreamEvent>, e: ResponsesStreamEvent)
    ensures TextDeltas(emitted + [e]) == TextDeltas(emitted) + (if e.OutputTextDelta? then [e.delta] else [])
    ensures MessageSteps(emitted + [e]) == MessageSteps(emitted) + StepOf(e)
  {
    assert (emitted + [e])[..|emitted|] == emitted;
  }

  lemma {:induction false} EmitItems(emitted: seq<ResponsesStreamEvent>, e: ResponsesStreamEvent)
    ensures SideSteps(emitted + [e]) == SideSteps(emitted) + SideOf(e)
    ensures Dones(emitted + [e]) == Dones(emitted) + DoneOf(e)
    ensures Addeds(emitted + [e]) == Addeds(emitted) + AddedOf(e)
    ensures Arguments(emitted + [e]) == Arguments(emitted) + ArgumentsOf(e)
  {
    assert (emitted + [e])[..|emitted|] == emitted;
  }

  lemma {:induction false} EmitKeeps(emitted: seq<ResponsesStreamEvent>, e: ResponsesStreamEvent)
    ensures IndicesRight(emitted + [e]) <==> IndicesRight(emitted) && IndexRight(e)
    ensures AllMidStream(emitted + [e]) <==> AllMidStream(emitted) && MidStream(e)
    ensures forall id :: OneItemId(emitted + [e], id) <==>
                         OneItemId(emitted, id) && (e.OutputTextDelta? ==> e.itemId == id)
  {
    hide IndexRight;
    var all := emitted + [e];
    assert all[|emitted|] == e;
    assert e in all;
    assert forall k :: 0 <= k < |emitted| ==> emitted[k] == all[k];
  }

  lemma Silence()
    ensures TextDeltas([]) == [] && MessageSteps([]) == [] && SideSteps([]) == [] && Dones([]) == []
    ensures Addeds([]) == [] && Arguments([]) == [] && Paired([]) && IndicesRight([]) && AllMidStream([])
  {
  }

  lemma {:induction false} Joined(a: seq<ResponsesStreamEvent>, b: seq<ResponsesStreamEvent>)
    ensures TextDeltas(a + b) == TextDeltas(a) + TextDeltas(b)
    ensures MessageSteps(a + b) == MessageSteps(a) + MessageSteps(b)
    ensures SideSteps(a + b) == SideSteps(a) + SideSteps(b)
    ensures Dones(a + b) == Dones(a) + Dones(b)
    ensures Addeds(a + b) == Addeds(a) + Addeds(b)
    ensures Arguments(a + b) == Arguments(a) + Arguments(b)
    ensures IndicesRight(a + b) <==> IndicesRight(a) && IndicesRight(b)
    ensures AllMidStream(a + b) <==> AllMidStream(a) && AllMidStream(b)
  {
    hide *;
    if b == [] {
      assert a + b == a;
      Silence();
    } else {
      var front, last := b[..|b| - 1], b[|b| - 1];
      assert a + b == (a + front) + [last];
      assert b == front + [last];
      Joined(a, front);
      Emit(a + front, last);
      Emit(front, last);
    }
  }
}
