/** The two shapes of a chat answer: one completion object, or a stream of chunks
    (crates/copenai-openai/src/sse.rs, crates/copenai-server/src/routes.rs). */
module ChatStream {
  import opened Wrappers
  import opened Events

  datatype ToolCall = ToolCall(id: string, name: string, arguments: string)

  datatype StreamEvent =
    | TextDelta(text: string)
    | UsageReport(report: UsageSnapshot)
    | Finished(reason: string, usageAtEnd: UsageSnapshot)
    | FinishedWithTools(reason: string, usageAtEnd: UsageSnapshot, toolCalls: seq<ToolCall>)
    | StreamError(error: string)

  datatype ToolCallChunk = ToolCallChunk(index: nat, call: ToolCall)

  datatype ChunkDelta = ChunkDelta(role: Option<string>, content: Option<string>,
                                   toolCall: Option<ToolCallChunk>)

  datatype Frame =
    | Chunk(id: string, model: string, delta: ChunkDelta, finishReason: Option<string>)
    | ErrorBody(message: string)
    | DoneMarker

  function ChunkRoleStart(id: string, model: string): Frame {
    Chunk(id, model, ChunkDelta(Some("assistant"), None, None), None)
  }

  function ChunkText(id: string, model: string, text: string, first: bool): Frame {
    Chunk(id, model, ChunkDelta(if first then Some("assistant") else None, Some(text), None), None)
  }

  function ChunkToolCall(id: string, model: string, index: nat, call: ToolCall): Frame {
    Chunk(id, model, ChunkDelta(None, None, Some(ToolCallChunk(index, call))), None)
  }

  function ChunkDone(id: string, model: string, reason: string): Frame {
    Chunk(id, model, ChunkDelta(None, None, None), Some(reason))
  }

  // ---- What a client makes of the frames ----

  datatype ClientView = ClientView(role: Option<string>, content: string, toolCalls: seq<ToolCall>,
                                   finish: Option<string>, error: Option<string>)

  const NOTHING_READ := ClientView(None, "", [], None, None)

  /** Chunks of one tool call share an index; later chunks extend its arguments. */
  function MergeToolCall(calls: seq<ToolCall>, chunk: ToolCallChunk): seq<ToolCall> {
    if chunk.index < |calls| then
      var known := calls[chunk.index];
      calls[chunk.index := known.(arguments := known.arguments + chunk.call.arguments)]
    else
      calls + [chunk.call]
  }

  function Absorb(view: ClientView, frame: Frame): ClientView {
    match frame
    case DoneMarker => view
    case ErrorBody(message) => view.(error := Some(message))
    case Chunk(_, _, delta, finish) =>
      ClientView(if delta.role.Some? then delta.role else view.role,
                 view.content + delta.content.GetOr(""),
                 if delta.toolCall.Some? then MergeToolCall(view.toolCalls, delta.toolCall.value)
                 else view.toolCalls,
                 if finish.Some? then finish else view.finish,
                 view.error)
  }

  function Reassemble(frames: seq<Frame>): ClientView {
    if frames == [] then NOTHING_READ
    else Absorb(Reassemble(frames[..|frames| - 1]), frames[|frames| - 1])
  }

  lemma {:induction false} ReassembleSnoc(frames: seq<Frame>, frame: Frame)
    ensures Reassemble(frames + [frame]) == Absorb(Reassemble(frames), frame)
  {
    assert (frames + [frame])[..|frames|] == frames;
  }

  /** What the events say, given the text already heard. */
  function Heard(events: seq<StreamEvent>, text: string): ClientView {
    if events == [] then ClientView(Some("assistant"), text, [], Some("stop"), None)
    else match events[0]
      case TextDelta(d) => Heard(events[1..], text + d)
      case UsageReport(_) => Heard(events[1..], text)
      case Finished(reason, _) => ClientView(Some("assistant"), text, [], Some(reason), None)
      case FinishedWithTools(reason, _, calls) =>
        ClientView(Some("assistant"), text, calls, Some(reason), None)
      case StreamError(e) => ClientView(Some("assistant"), text, [], None, Some(e))
  }

  // ---- The shape every stream has ----

  predicate IsTextChunk(frame: Frame) {
    frame.Chunk? && frame.finishReason.None? && frame.delta.toolCall.None?
    && frame.delta.content.Some? && frame.delta.content.value != ""
  }

  predicate IsToolChunk(frame: Frame) {
    frame.Chunk? && frame.finishReason.None? && frame.delta.content.None?
    && frame.delta.role.None? && frame.delta.toolCall.Some?
  }

  predicate IsEnd(frame: Frame) {
    || frame.ErrorBody?
    || (frame.Chunk? && frame.finishReason.Some? && frame.delta == ChunkDelta(None, None, None))
  }

  /** Every chunk names the completion and the model it belongs to. */
  ghost predicate Named(id: string, model: string, frames: seq<Frame>) {
    forall k :: 0 <= k < |frames| && frames[k].Chunk? ==> frames[k].id == id && frames[k].model == model
  }

  /** A role chunk, then text chunks up to position tools, of which the first repeats
      the role, then tool chunks. */
  ghost predicate Sections(id: string, model: string, frames: seq<Frame>, tools: nat) {
    && 1 <= tools <= |frames|
    && frames[0] == ChunkRoleStart(id, model)
    && (forall k :: 1 <= k < tools ==>
          IsTextChunk(frames[k]) && frames[k].delta.role == if k == 1 then Some("assistant") else None)
    && (forall k :: tools <= k < |frames| ==> IsToolChunk(frames[k]))
    && Named(id, model, frames)
  }

  ghost predicate Sectioned(id: string, model: string, frames: seq<Frame>) {
    exists tools :: Sections(id, model, frames, tools)
  }

  /** Role chunk, text chunks, tool chunks, one end frame, one final marker; no
      tool chunk precedes an error. */
  ghost predicate StreamShape(id: string, model: string, frames: seq<Frame>) {
    && |frames| >= 3
    && frames[|frames| - 1] == DoneMarker
    && IsEnd(frames[|frames| - 2])
    && Named(id, model, frames)
    && Sectioned(id, model, frames[..|frames| - 2])
    && (frames[|frames| - 2].ErrorBody? ==> Sections(id, model, frames[..|frames| - 2], |frames| - 2))
  }

  method Terminate(id: string, model: string, frames: seq<Frame>, end: Frame, ghost tools: nat)
    returns (all: seq<Frame>)
    requires Sections(id, model, frames, tools)
    requires IsEnd(end) && (end.Chunk? ==> end.id == id && end.model == model)
    requires end.ErrorBody? ==> tools == |frames|
    ensures StreamShape(id, model, all)
    ensures Reassemble(all) == Absorb(Reassemble(frames), end)
  {
    all := frames + [end] + [DoneMarker];
    ReassembleSnoc(frames, end);
    ReassembleSnoc(frames + [end], DoneMarker);
    assert all[..|all| - 2] == frames;
  }

  method EmitToolChunks(id: string, model: string, texts: seq<Frame>, calls: seq<ToolCall>)
    returns (frames: seq<Frame>)
    requires Sections(id, model, texts, |texts|)
    requires Reassemble(texts).toolCalls == []
    ensures Sections(id, model, frames, |texts|)
    ensures Reassemble(frames) == Reassemble(texts).(toolCalls := calls)
  {
    frames := texts;
    var t := 0;
    while t < |calls|
      invariant 0 <= t <= |calls|
      invariant Sections(id, model, frames, |texts|)
      invariant Reassemble(frames) == Reassemble(texts).(toolCalls := calls[..t])
    {
      var chunk := ChunkToolCall(id, model, t, calls[t]);
      ReassembleSnoc(frames, chunk);
      assert Reassemble(texts).content + "" == Reassemble(texts).content;
      assert calls[..t + 1] == calls[..t] + [calls[t]];
      frames := frames + [chunk];
      t := t + 1;
    }
    assert calls[..t] == calls;
  }

  /** The streamed answer: of the right shape, and a client reassembles from the
      chunks exactly what the events said. */
  method LiveSseStream(id: string, model: string, events: seq<StreamEvent>) returns (frames: seq<Frame>)
    ensures Reassemble(frames) == Heard(events, "")
    ensures StreamShape(id, model, frames)
  {
    frames := [ChunkRoleStart(id, model)];
    ghost var heard := "";
    var first := true;
    var finishReason := "stop";
    var i := 0;
    RoleRead(id, model);
    while i < |events|
      invariant 0 <= i <= |events|
      invariant Sections(id, model, frames, |frames|)
      invariant Reassemble(frames) == ClientView(Some("assistant"), heard, [], None, None)
      invariant Heard(events, "") == Heard(events[i..], heard)
      invariant finishReason == "stop" && (first <==> |frames| == 1)
    {
      ghost var rest := events[i..];
      assert rest[0] == events[i] && rest[1..] == events[i + 1..];
      match events[i] {
        case TextDelta(delta) =>
          if delta != "" {
            var chunk := ChunkText(id, model, delta, first);
            ReassembleSnoc(frames, chunk);
            first := false;
            frames := frames + [chunk];
          } else {
            assert heard + delta == heard;
          }
          heard := heard + delta;
        case UsageReport(_) =>
        case Finished(reason, _) =>
          finishReason := reason;
          break;
        case FinishedWithTools(reason, _, toolCalls) =>
          ghost var texts := |frames|;
          frames := EmitToolChunks(id, model, frames, toolCalls);
          frames := Terminate(id, model, frames, ChunkDone(id, model, reason), texts);
          return;
        case StreamError(e) =>
          frames := Terminate(id, model, frames, ErrorBody(e), |frames|);
          return;
      }
      i := i + 1;
    }
    frames := Terminate(id, model, frames, ChunkDone(id, model, finishReason), |frames|);
  }

  lemma RoleRead(id: string, model: string)
    ensures Reassemble([ChunkRoleStart(id, model)]) == ClientView(Some("assistant"), "", [], None, None)
    ensures Sections(id, model, [ChunkRoleStart(id, model)], 1)
  {
    ReassembleSnoc([], ChunkRoleStart(id, model));
    assert [] + [ChunkRoleStart(id, model)] == [ChunkRoleStart(id, model)];
  }

  // ---- The plain chat path ----

  function MapStreamEvent(event: PromptStreamEvent): Option<StreamEvent> {
    match event
    case Delta(d) => Some(TextDelta(d))
    case Usage(u) => Some(UsageReport(u))
    case Done(reason, _, u) => Some(Finished(reason.AsOpenAiString(), u))
    case Error(e) => Some(StreamError(e))
    case ReasoningDelta(_) => None
    case AgentToolCall(_) => None
  }

  function MapStreamEvents(events: seq<PromptStreamEvent>): seq<StreamEvent> {
    if events == [] then [] else
      var first := MapStreamEvent(events[0]);
      (if first.Some? then [first.value] else []) + MapStreamEvents(events[1..])
  }

  datatype Completion = Completion(content: Option<string>, toolCalls: Option<seq<ToolCall>>,
                                   finishReason: string, usage: UsageSnapshot)

  function CompletionResponse(content: string, finishReason: string, usage: UsageSnapshot): Completion {
    Completion(if content == "" then None else Some(content), None, finishReason, usage)
  }

  function CompletionResponseWithTools(content: string, finishReason: string, usage: UsageSnapshot,
                                       toolCalls: Option<seq<ToolCall>>): Completion {
    Completion(if toolCalls.Some? || content == "" then None else Some(content),
               toolCalls, finishReason, usage)
  }

  /** The unstreamed plain answer. */
  method ChatPlain(events: seq<PromptStreamEvent>) returns (r: Result<Completion, string>)
    ensures r.Success? <==> Collect(events).Success?
    ensures r.Failure? ==> r.error == Collect(events).error
    ensures r.Success? ==>
      var c := Collect(events).value;
      && r.value == CompletionResponse(c.text, c.finish.AsOpenAiString(), c.usage)
      && (c.text == "" ==> r.value.content == None) && (c.text != "" ==> r.value.content == Some(c.text))
      && r.value.toolCalls == None && r.value.usage == c.usage
      && r.value.finishReason ==
           match c.finish
           case Stop => "stop"
           case Length => "length"
           case ContentFilter => "content_filter"
  {
    var content, usage, finishReason := "", NO_USAGE, "stop";
    var i := 0;
    while i < |events|
      invariant 0 <= i <= |Live(events)|
      invariant content == TextOf(events[..i])
      invariant usage == LastUsage(events[..i])
      invariant finishReason == "stop"
    {
      LiveStep(events, i);
      match events[i] {
        case Delta(delta) => content := content + delta;
        case Usage(u) => usage := u;
        case Done(reason, fullText, u) =>
          return Success(CompletionResponse(fullText, reason.AsOpenAiString(), u));
        case ReasoningDelta(_) =>
        case AgentToolCall(_) =>
        case Error(e) => return Failure(e);
      }
      i := i + 1;
    }
    assert Live(events) == events[..i];
    r := Success(CompletionResponse(content, finishReason, usage));
  }

  /** A client's reading of a completion object, for comparison with a stream. */
  function CompletionView(c: Completion): ClientView {
    ClientView(Some("assistant"), c.content.GetOr(""), c.toolCalls.GetOr([]), Some(c.finishReason), None)
  }

  lemma HeardStep(events: seq<PromptStreamEvent>, text: string)
    requires events != [] && !events[0].IsTerminal()
    ensures Heard(MapStreamEvents(events), text) ==
      Heard(MapStreamEvents(events[1..]), if events[0].Delta? then text + events[0].delta else text)
  {
    var first := MapStreamEvent(events[0]);
    var rest := MapStreamEvents(events[1..]);
    if first.Some? {
      assert ([first.value] + rest)[1..] == rest;
    } else {
      assert [] + rest == rest;
    }
  }

  /** What the mapped events say is settled by the live events and the first
      terminal one. */
  function HeardOf(events: seq<PromptStreamEvent>, text: string): ClientView {
    var live := Live(events);
    if |live| == |events| then ClientView(Some("assistant"), text, [], Some("stop"), None)
    else if events[|live|].Done? then
      ClientView(Some("assistant"), text, [], Some(events[|live|].finishReason.AsOpenAiString()), None)
    else ClientView(Some("assistant"), text, [], None, Some(events[|live|].message))
  }

  lemma {:induction false} HeardPlain(events: seq<PromptStreamEvent>, text: string)
    ensures Heard(MapStreamEvents(events), text) == HeardOf(events, text + TextOf(Live(events)))
  {
    hide TextOf;
    NoText();
    assert text + "" == text;
    if events != [] && !events[0].IsTerminal() {
      var e, rest := events[0], events[1..];
      HeardStep(events, text);
      var text' := if e.Delta? then text + e.delta else text;
      HeardPlain(rest, text');
      TextOfCons(e, Live(rest));
      assert text' + TextOf(Live(rest)) == text + TextOf(Live(events));
    }
  }

  lemma NoText()
    ensures TextOf([]) == ""
  {
  }

  lemma {:induction false} DeltasCons(e: PromptStreamEvent, rest: seq<PromptStreamEvent>)
    ensures Deltas([e] + rest) == (if e.Delta? then [e.delta] else []) + Deltas(rest)
  {
    if rest == [] {
      assert [e] + rest == [e] && [e][..0] == [];
    } else {
      var n := |rest| - 1;
      assert ([e] + rest)[..n + 1] == [e] + rest[..n];
      DeltasCons(e, rest[..n]);
    }
  }

  lemma {:induction false} ConcatCons(first: string, rest: seq<string>)
    ensures Concat([first] + rest) == first + Concat(rest)
  {
    if rest == [] {
      assert [first] + rest == [first] && [first][..0] == [];
    } else {
      var n := |rest| - 1;
      assert ([first] + rest)[..n + 1] == [first] + rest[..n];
      ConcatCons(first, rest[..n]);
    }
  }

  lemma TextOfCons(e: PromptStreamEvent, rest: seq<PromptStreamEvent>)
    ensures TextOf([e] + rest) == (if e.Delta? then e.delta else "") + TextOf(rest)
  {
    hide Deltas, Concat;
    DeltasCons(e, rest);
    if e.Delta? {
      ConcatCons(e.delta, Deltas(rest));
    } else {
      assert [] + Deltas(rest) == Deltas(rest);
    }
  }

  /** Streamed and unstreamed plain chat, on any event sequence: they fail
      together with the same message, finish for the same reason, and carry the
      same text exactly when a final Done repeats what the deltas said. */
  lemma {:induction false} PlainChatAgrees(events: seq<PromptStreamEvent>)
    ensures var view := Heard(MapStreamEvents(events), "");
            var whole := Collect(events);
            && (whole.Failure? <==> view.error.Some?)
            && (whole.Failure? ==> view.error == Some(whole.error))
            && (whole.Success? ==>
                  var c := CompletionResponse(whole.value.text, whole.value.finish.AsOpenAiString(), whole.value.usage);
                  && view.finish == Some(c.finishReason)
                  && (view == CompletionView(c) <==>
                        var live := Live(events);
                        |live| < |events| ==> events[|live|].fullText == TextOf(live)))
  {
    HeardPlain(events, "");
    assert "" + TextOf(Live(events)) == TextOf(Live(events));
  }

  // ---- Chat with tools ----

  /** What the tool path streams once the turn is over. */
  function ToolEvents(text: string, usage: UsageSnapshot, finishReason: string,
                      toolCalls: seq<ToolCall>): seq<StreamEvent>
  {
    [TextDelta(text), UsageReport(usage), FinishedWithTools(finishReason, usage, toolCalls)]
  }

  /** Streamed and unstreamed answers of a tool turn agree exactly when the turn
      does not report both calls and text. */
  lemma ToolChatAgrees(text: string, usage: UsageSnapshot, finishReason: string, toolCalls: seq<ToolCall>)
    ensures var c := CompletionResponseWithTools(text, finishReason, usage,
                                                 if toolCalls == [] then None else Some(toolCalls));
            Heard(ToolEvents(text, usage, finishReason, toolCalls), "") == CompletionView(c)
            <==> toolCalls == [] || text == ""
  {
    var last := FinishedWithTools(finishReason, usage, toolCalls);
    var events := ToolEvents(text, usage, finishReason, toolCalls);
    assert "" + text == text;
    assert events[1..] == [UsageReport(usage), last];
    assert events[1..][1..] == [last];
    assert Heard([last], text) == ClientView(Some("assistant"), text, toolCalls, Some(finishReason), None);
    assert Heard(events[1..], text) == Heard([last], text);
    assert Heard(events, "") == Heard(events[1..], text);
  }
}
